/**
 * Event deferral in the SOME/IP system: events raised while a request is being handled wait until its response
 * is out. One receive thread and any number of publisher threads; each locked section is one step.
 */
module SomeIpDeferral {
  type Client = nat

  /** Events and requests are numbered in the order they are raised and received. */
  datatype Sent =
    | Response(request: nat, to: Client)
    | Flushed(event: nat, to: Client)
    | Direct(event: nat, to: Client)

  // ----- The known clients, an ordered set -----

  ghost predicate Ascending(s: seq<nat>) {
    forall i, j :: 0 <= i < j < |s| ==> s[i] < s[j]
  }

  function Insert(clients: seq<Client>, c: Client): seq<Client> {
    if clients == [] || c < clients[0] then [c] + clients
    else if c == clients[0] then clients
    else [clients[0]] + Insert(clients[1..], c)
  }

  function Erase(clients: seq<Client>, c: Client): seq<Client> {
    if clients == [] then []
    else if clients[0] == c then clients[1..]
    else [clients[0]] + Erase(clients[1..], c)
  }

  lemma HeadAndTail(clients: seq<Client>)
    requires clients != [] && Ascending(clients)
    ensures Ascending(clients[1..])
    ensures forall x :: x in clients <==> x == clients[0] || x in clients[1..]
    ensures forall x :: x in clients[1..] ==> clients[0] < x
  {
    assert clients == [clients[0]] + clients[1..];
  }

  lemma Prepended(c: Client, rest: seq<Client>)
    requires Ascending(rest) && forall x :: x in rest ==> c < x
    ensures Ascending([c] + rest)
    ensures forall x :: x in [c] + rest <==> x == c || x in rest
  {
    assert forall i :: 0 <= i < |rest| ==> rest[i] in rest;
  }

  lemma {:induction false} InsertMembers(clients: seq<Client>, c: Client)
    requires Ascending(clients)
    ensures Ascending(Insert(clients, c))
    ensures forall x :: x in Insert(clients, c) <==> x in clients || x == c
  {
    hide Ascending;
    if clients != [] {
      HeadAndTail(clients);
    }
    if clients == [] || c < clients[0] {
      Prepended(c, clients);
    } else if clients[0] < c {
      InsertMembers(clients[1..], c);
      Prepended(clients[0], Insert(clients[1..], c));
    }
  }

  lemma {:induction false} EraseMembers(clients: seq<Client>, c: Client)
    requires Ascending(clients)
    ensures Ascending(Erase(clients, c))
    ensures forall x :: x in Erase(clients, c) <==> x in clients && x != c
  {
    hide Ascending;
    if clients != [] {
      HeadAndTail(clients);
      if clients[0] != c {
        EraseMembers(clients[1..], c);
        Prepended(clients[0], Erase(clients[1..], c));
      }
    }
  }

  lemma {:induction false} InsertAt(clients: seq<Client>, c: Client, i: nat)
    requires i <= |clients| && (forall j :: 0 <= j < i ==> clients[j] < c) && (i < |clients| ==> c <= clients[i])
    ensures Insert(clients, c) ==
            if i < |clients| && clients[i] == c then clients else clients[..i] + [c] + clients[i..]
  {
    if i > 0 {
      InsertAt(clients[1..], c, i - 1);
    }
  }

  lemma {:induction false} EraseAt(clients: seq<Client>, c: Client, i: nat)
    requires i <= |clients| && (forall j :: 0 <= j < i ==> clients[j] != c) && (i < |clients| ==> clients[i] == c)
    ensures Erase(clients, c) == if i < |clients| then clients[..i] + clients[i + 1..] else clients
  {
    if i > 0 {
      EraseAt(clients[1..], c, i - 1);
    }
  }

  // ----- The locked sections -----

  function DirectTo(event: nat, clients: seq<Client>): seq<Sent> {
    seq(|clients|, i requires 0 <= i < |clients| => Direct(event, clients[i]))
  }

  function FlushedTo(event: nat, clients: seq<Client>): seq<Sent> {
    seq(|clients|, i requires 0 <= i < |clients| => Flushed(event, clients[i]))
  }

  /** Every event to every client, event by event. */
  function Flush(events: seq<nat>, clients: seq<Client>): seq<Sent> {
    if events == [] then [] else FlushedTo(events[0], clients) + Flush(events[1..], clients)
  }

  /** The fields the mutex guards, and what has gone out on the wire. */
  datatype Shared = Shared(dispatching: bool, pending: seq<nat>, clients: seq<Client>, wire: seq<Sent>) {
    function Register(c: Client): Shared { this.(clients := Insert(clients, c)) }

    function Forget(c: Client): Shared { this.(clients := Erase(clients, c)) }

    /** The first section of sendEvent: the flag says whether the event was deferred. */
    function Defer(event: nat): (Shared, bool) {
      if dispatching then (this.(pending := pending + [event]), true) else (this, false)
    }

    /** The second section of sendEvent. */
    function SendNow(event: nat): Shared { this.(wire := wire + DirectTo(event, clients)) }

    function BeginDispatch(): Shared { this.(dispatching := true) }

    function EndDispatch(): (Shared, seq<nat>) { (this.(dispatching := false, pending := []), pending) }

    function Transmit(m: Sent): Shared { this.(wire := wire + [m]) }
  }

  class SomeIpSystem {
    var dispatching: bool
    var pending: seq<nat>
    var clients: seq<Client>
    var wire: seq<Sent>

    constructor ()
      ensures View() == Shared(false, [], [], [])
    {
      dispatching, pending, clients, wire := false, [], [], [];
    }

    function View(): Shared
      reads this
    {
      Shared(dispatching, pending, clients, wire)
    }

    method InsertClient(c: Client)
      modifies this`clients
      ensures View() == old(View()).Register(c)
    {
      var i := 0;
      while i < |clients| && clients[i] < c
        invariant 0 <= i <= |clients| && forall j :: 0 <= j < i ==> clients[j] < c
      {
        i := i + 1;
      }
      InsertAt(clients, c, i);
      if i == |clients| || clients[i] != c {
        clients := clients[..i] + [c] + clients[i..];
      }
    }

    method OnConnectionLost(c: Client)
      modifies this`clients
      ensures View() == old(View()).Forget(c)
    {
      var i := 0;
      while i < |clients| && clients[i] != c
        invariant 0 <= i <= |clients| && forall j :: 0 <= j < i ==> clients[j] != c
      {
        i := i + 1;
      }
      EraseAt(clients, c, i);
      if i < |clients| {
        clients := clients[..i] + clients[i + 1..];
      }
    }

    method SendEventFirst(event: nat) returns (deferred: bool)
      modifies this
      ensures (View(), deferred) == old(View()).Defer(event)
    {
      if dispatching {
        pending := pending + [event];
        return true;
      }
      return false;
    }

    method SendEventSecond(event: nat)
      modifies this`wire
      ensures View() == old(View()).SendNow(event)
    {
      for i := 0 to |clients|
        invariant wire == old(wire) + DirectTo(event, clients[..i])
      {
        assert DirectTo(event, clients[..i + 1]) == DirectTo(event, clients[..i]) + [Direct(event, clients[i])];
        wire := wire + [Direct(event, clients[i])];
      }
      assert clients[..|clients|] == clients;
    }

    method StartDispatch()
      modifies this
      ensures View() == old(View()).BeginDispatch()
    {
      dispatching := true;
    }

    method FinishDispatch() returns (deferred: seq<nat>)
      modifies this
      ensures (View(), deferred) == old(View()).EndDispatch()
    {
      dispatching := false;
      deferred, pending := pending, [];
    }

    /** The unlocked loop of the receive thread over its private list and snapshot, here without interference. */
    method FlushDeferred(deferred: seq<nat>, snapshot: seq<Client>)
      modifies this`wire
      ensures wire == old(wire) + Flush(deferred, snapshot)
    {
      for k := 0 to |deferred|
        invariant wire + Flush(deferred[k..], snapshot) == old(wire) + Flush(deferred, snapshot)
      {
        ghost var before := wire;
        for i := 0 to |snapshot|
          invariant wire == before + FlushedTo(deferred[k], snapshot[..i])
        {
          assert FlushedTo(deferred[k], snapshot[..i + 1]) ==
                 FlushedTo(deferred[k], snapshot[..i]) + [Flushed(deferred[k], snapshot[i])];
          wire := wire + [Flushed(deferred[k], snapshot[i])];
        }
        assert snapshot[..|snapshot|] == snapshot && deferred[k..][1..] == deferred[k + 1..];
      }
    }
  }

  // ----- Threads and steps -----

  datatype Thread = ReceiveThread | Publisher(id: nat)

  /** Where the receive thread is. */
  datatype Receiver =
    | Idle
    | Entered(request: nat, sender: Client)
    | Handling(request: nat, sender: Client)
    | Answering(request: nat, sender: Client, deferred: seq<nat>)
    | Answered(request: nat, sender: Client, deferred: seq<nat>)
    | Flushing(todo: seq<Sent>)
    | HandlingNotification

  /** One answered request: who asked, what was deferred meanwhile, and the clients it went to. */
  datatype Batch = Batch(request: nat, sender: Client, deferred: seq<nat>, snapshot: seq<Client>)

  /** One event sent directly, and the clients it went to. */
  datatype Delivery = Delivery(event: nat, clients: seq<Client>)

  datatype Fate = DeferredBy(request: nat) | Straight

  /**
   * `inFlight` holds the events between the two sections of sendEvent. `raisers`, `fates`, `direct` and `batches`
   * record what happened: who raised each event, its fate, the events sent directly, the requests answered.
   */
  datatype System = System(
    shared: Shared, receiver: Receiver, inFlight: map<Thread, nat>, requests: nat,
    raisers: seq<Thread>, fates: seq<Fate>, direct: seq<Delivery>, batches: seq<Batch>)

  const START := System(Shared(false, [], [], []), Idle, map[], 0, [], [], [], [])

  datatype Step =
    | Receive(sender: Client, isRequest: bool)
    | BeginHandling
    | Raise(t: Thread)
    | SendDirect(t: Thread)
    | EndHandling
    | Respond
    | TakeSnapshot
    | FlushOne
    | Finish
    | ConnectionLost(client: Client)

  predicate Enabled(publishers: set<nat>, s: System, step: Step) {
    match step
    case Receive(_, _) => s.receiver.Idle?
    case BeginHandling => s.receiver.Entered?
    case Raise(t) =>
      && t !in s.inFlight
      && (match t
          case ReceiveThread => s.receiver.Handling? || s.receiver.HandlingNotification?
          case Publisher(id) => id in publishers)
    case SendDirect(t) => t in s.inFlight
    case EndHandling => s.receiver.Handling?
    case Respond => s.receiver.Answering?
    case TakeSnapshot => s.receiver.Answered?
    case FlushOne => s.receiver.Flushing? && s.receiver.todo != []
    case Finish =>
      || (s.receiver.Flushing? && s.receiver.todo == [])
      || (s.receiver.HandlingNotification? && ReceiveThread !in s.inFlight)
    case ConnectionLost(_) => true
  }

  function Next(publishers: set<nat>, s: System, step: Step): System
    requires Enabled(publishers, s, step)
  {
    match step
    case Receive(sender, isRequest) =>
      var s' := s.(shared := s.shared.Register(sender));
      if isRequest then s'.(receiver := Entered(s.requests, sender), requests := s.requests + 1)
      else s'.(receiver := HandlingNotification)
    case BeginHandling =>
      s.(shared := s.shared.BeginDispatch(), receiver := Handling(s.receiver.request, s.receiver.sender))
    case Raise(t) =>
      var e := |s.fates|;
      var (shared, deferred) := s.shared.Defer(e);
      var raised := s.(shared := shared, raisers := s.raisers + [t]);
      if deferred then
        raised.(fates := s.fates + [DeferredBy(if s.receiver.Handling? then s.receiver.request else 0)])
      else
        raised.(inFlight := s.inFlight[t := e], fates := s.fates + [Straight])
    case SendDirect(t) =>
      var e := s.inFlight[t];
      s.(shared := s.shared.SendNow(e), inFlight := s.inFlight - {t},
      direct := s.direct + [Delivery(e, s.shared.clients)])
    case EndHandling =>
      var (shared, deferred) := s.shared.EndDispatch();
      s.(shared := shared, receiver := Answering(s.receiver.request, s.receiver.sender, deferred))
    case Respond =>
      s.(shared := s.shared.Transmit(Response(s.receiver.request, s.receiver.sender)),
      receiver := Answered(s.receiver.request, s.receiver.sender, s.receiver.deferred))
    case TakeSnapshot =>
      s.(receiver := Flushing(Flush(s.receiver.deferred, s.shared.clients)),
      batches := s.batches + [Batch(s.receiver.request, s.receiver.sender, s.receiver.deferred, s.shared.clients)])
    case FlushOne =>
      s.(shared := s.shared.Transmit(s.receiver.todo[0]), receiver := Flushing(s.receiver.todo[1..]))
    case Finish => s.(receiver := Idle)
    case ConnectionLost(c) => s.(shared := s.shared.Forget(c))
  }

  /** The state after a run; a step that is not enabled does nothing. */
  function After(publishers: set<nat>, run: seq<Step>): System {
    if run == [] then START
    else
      var s, step := After(publishers, run[..|run| - 1]), run[|run| - 1];
      if Enabled(publishers, s, step) then Next(publishers, s, step) else s
  }

  // ----- The ledger -----

  function EventsOf(direct: seq<Delivery>): (events: seq<nat>)
    ensures |events| == |direct|
  {
    seq(|direct|, i requires 0 <= i < |direct| => direct[i].event)
  }

  /** Taken over by the receive thread, but not yet scheduled for the wire. */
  function InHand(r: Receiver): seq<nat> {
    if r.Answering? || r.Answered? then r.deferred else []
  }

  function Deferred(batches: seq<Batch>): seq<nat> {
    if batches == [] then [] else Deferred(batches[..|batches| - 1]) + batches[|batches| - 1].deferred
  }

  /** All events ever deferred, in the order they are, were or will be flushed. */
  function DeferredLine(s: System): seq<nat> {
    Deferred(s.batches) + InHand(s.receiver) + s.shared.pending
  }

  /** Every event is in exactly one place, the one its fate says: deferred, sent directly, or between the sections. */
  ghost predicate Accounts(line: seq<nat>, fates: seq<Fate>, direct: seq<nat>, inFlight: map<Thread, nat>) {
    && Ascending(line)
    && (forall e :: e in line ==> e < |fates| && fates[e].DeferredBy?)
    && (forall i, j :: 0 <= i < j < |direct| ==> direct[i] != direct[j])
    && (forall e :: e in direct ==> e < |fates| && fates[e] == Straight)
    && (forall t :: t in inFlight ==>
                      inFlight[t] < |fates| && fates[inFlight[t]] == Straight && inFlight[t] !in direct)
    && (forall t, u :: t in inFlight && u in inFlight && t != u ==> inFlight[t] != inFlight[u])
    && (forall e :: 0 <= e < |fates| ==> e in line || e in direct || exists t :: t in inFlight && inFlight[t] == e)
  }

  ghost predicate Ledger(s: System) {
    Accounts(DeferredLine(s), s.fates, EventsOf(s.direct), s.inFlight)
  }

  ghost predicate RaisedUnder(events: seq<nat>, fates: seq<Fate>, request: nat) {
    forall e :: e in events ==> e < |fates| && fates[e] == DeferredBy(request)
  }

  /** Dispatching is the time of handling; nothing waits outside it. */
  predicate InPhase(s: System) {
    && s.shared.dispatching == s.receiver.Handling?
    && (!s.shared.dispatching ==> s.shared.pending == [])
    && (ReceiveThread in s.inFlight ==> s.receiver.HandlingNotification?)
  }

  /** What was deferred was raised under the request it is sent after. */
  ghost predicate Sorted(s: System) {
    && (s.receiver.Handling? ==> RaisedUnder(s.shared.pending, s.fates, s.receiver.request))
    && (s.receiver.Answering? || s.receiver.Answered? ==>
        RaisedUnder(s.receiver.deferred, s.fates, s.receiver.request))
    && (forall i :: 0 <= i < |s.batches| ==> RaisedUnder(s.batches[i].deferred, s.fates, s.batches[i].request))
  }

  lemma StepInPhase(publishers: set<nat>, s: System, step: Step)
    requires Enabled(publishers, s, step) && InPhase(s)
    ensures InPhase(Next(publishers, s, step))
  {
  }

  lemma StepSorted(publishers: set<nat>, s: System, step: Step)
    requires Enabled(publishers, s, step) && InPhase(s) && Sorted(s)
    ensures Sorted(Next(publishers, s, step))
  {
  }

  /** The deferred line only ever grows at its end, by an event just raised while a request is handled. */
  lemma StepLine(publishers: set<nat>, s: System, step: Step)
    requires Enabled(publishers, s, step) && InPhase(s)
    ensures DeferredLine(Next(publishers, s, step)) ==
            if step.Raise? && s.shared.dispatching then DeferredLine(s) + [|s.fates|] else DeferredLine(s)
  {
    if step.TakeSnapshot? {
      assert Next(publishers, s, step).batches[..|s.batches|] == s.batches;
    }
  }

  lemma EventsOfAppend(direct: seq<Delivery>, d: Delivery)
    ensures EventsOf(direct + [d]) == EventsOf(direct) + [d.event]
  {
  }

  lemma StepLedger(publishers: set<nat>, s: System, step: Step)
    requires Enabled(publishers, s, step) && InPhase(s) && Ledger(s)
    ensures Ledger(Next(publishers, s, step))
  {
    hide Accounts;
    hide DeferredLine;
    hide EventsOf;
    StepLine(publishers, s, step);
    var line := DeferredLine(s);
    match step {
      case Raise(t) =>
        if s.shared.dispatching {
          AccountsDefer(line, s.fates, EventsOf(s.direct), s.inFlight, Next(publishers, s, step).fates);
        } else {
          AccountsStraight(line, s.fates, EventsOf(s.direct), s.inFlight, t);
        }
      case SendDirect(t) =>
        AccountsSend(line, s.fates, EventsOf(s.direct), s.inFlight, t);
        EventsOfAppend(s.direct, Delivery(s.inFlight[t], s.shared.clients));
      case _ =>
    }
  }

  lemma AccountsDefer(line: seq<nat>, fates: seq<Fate>, direct: seq<nat>, inFlight: map<Thread, nat>,
                      fates': seq<Fate>)
    requires Accounts(line, fates, direct, inFlight)
    requires |fates'| == |fates| + 1 && fates'[..|fates|] == fates && fates'[|fates|].DeferredBy?
    ensures Accounts(line + [|fates|], fates', direct, inFlight)
  {
    forall e | 0 <= e < |fates|
      ensures fates'[e] == fates[e]
    {
      assert fates'[e] == fates'[..|fates|][e];
    }
    assert forall e :: e in line + [|fates|] <==> e in line || e == |fates|;
    assert forall i :: 0 <= i < |line| ==> line[i] in line;
  }

  lemma AccountsStraight(line: seq<nat>, fates: seq<Fate>, direct: seq<nat>, inFlight: map<Thread, nat>, t: Thread)
    requires Accounts(line, fates, direct, inFlight) && t !in inFlight
    ensures Accounts(line, fates + [Straight], direct, inFlight[t := |fates|])
  {
    var inFlight' := inFlight[t := |fates|];
    forall e | 0 <= e <= |fates|
      ensures e in line || e in direct || exists u :: u in inFlight' && inFlight'[u] == e
    {
      if e == |fates| {
        assert inFlight'[t] == e;
      } else if u :| u in inFlight && inFlight[u] == e {
        assert inFlight'[u] == e;
      }
    }
  }

  lemma AccountsSend(line: seq<nat>, fates: seq<Fate>, direct: seq<nat>, inFlight: map<Thread, nat>, t: Thread)
    requires Accounts(line, fates, direct, inFlight) && t in inFlight
    ensures Accounts(line, fates, direct + [inFlight[t]], inFlight - {t})
  {
    var direct', inFlight' := direct + [inFlight[t]], inFlight - {t};
    assert direct'[|direct|] == inFlight[t];
    forall e | 0 <= e < |fates|
      ensures e in line || e in direct' || exists u :: u in inFlight' && inFlight'[u] == e
    {
      if e in direct {
        var i :| 0 <= i < |direct| && direct[i] == e;
        assert direct'[i] == e;
      } else if u :| u in inFlight && inFlight[u] == e {
        if u != t {
          assert inFlight'[u] == e;
        }
      }
    }
  }

  // ----- Over all runs -----

  ghost predicate Sound(s: System) {
    InPhase(s) && Ledger(s) && Sorted(s)
  }

  lemma {:induction false} AlwaysSound(publishers: set<nat>, run: seq<Step>)
    ensures Sound(After(publishers, run))
  {
    hide Next;
    hide InPhase;
    hide Ledger;
    hide Sorted;
    if run == [] {
      StartSound();
    } else {
      var s, step := After(publishers, run[..|run| - 1]), run[|run| - 1];
      AlwaysSound(publishers, run[..|run| - 1]);
      if Enabled(publishers, s, step) {
        StepInPhase(publishers, s, step);
        StepLedger(publishers, s, step);
        StepSorted(publishers, s, step);
      }
    }
  }

  lemma StartSound()
    ensures Sound(START)
  {
  }

  ghost predicate BetweenSections(s: System, e: nat) {
    exists t :: t in s.inFlight && s.inFlight[t] == e
  }

  /** Under any interleaving: outside dispatching nothing is pending, and the deferred line is in raise order. */
  lemma Deferral(publishers: set<nat>, run: seq<Step>)
    ensures var s := After(publishers, run);
            && (!s.shared.dispatching ==> s.shared.pending == [])
            && Ascending(DeferredLine(s))
  {
    AlwaysSound(publishers, run);
    hide After;
    hide Deferred;
  }

  /** What was deferred was raised under the request it is sent after. */
  lemma DeferredUnder(publishers: set<nat>, run: seq<Step>, i: nat)
    requires i < |After(publishers, run).batches|
    ensures var s := After(publishers, run); RaisedUnder(s.batches[i].deferred, s.fates, s.batches[i].request)
  {
    AlwaysSound(publishers, run);
    hide After;
    hide Ledger;
  }

  /** Every event raised is in exactly one of the deferred line, the events sent directly and those between sections. */
  lemma OneFate(publishers: set<nat>, run: seq<Step>, e: nat)
    requires e < |After(publishers, run).fates|
    ensures var s := After(publishers, run);
            && (e in DeferredLine(s) || e in EventsOf(s.direct) || BetweenSections(s, e))
            && !(e in DeferredLine(s) && e in EventsOf(s.direct))
            && !(e in DeferredLine(s) && BetweenSections(s, e))
            && !(e in EventsOf(s.direct) && BetweenSections(s, e))
  {
    AlwaysSound(publishers, run);
    hide After;
    hide DeferredLine;
    hide EventsOf;
  }
}
