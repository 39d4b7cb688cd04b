/** The door lock on the in-process bus: a command signal, the lock state and the response as one cascade. */
module DoorCommandCascade {
  import opened Ports
  import opened Boards
  import opened DoorLock
  import opened SignalCascade
  import opened BodyEcu

  /** The controller with its pins and events; `ok` is the outcome the response will carry. */
  datatype Controller = Controller(state: LockState, gpio: map<nat, bool>, sent: seq<Message>, ok: bool)

  function DoorOf(c: Controller, store: Store): Door {
    Door(c.state, Board(store, c.gpio, c.sent))
  }

  /** Up to the publication of the lock state. */
  function Obey(pin: nat, c: Controller, store: Store, value: SignalValue): (Controller, Effect) {
    if !value.BoolValue? then (c, Nothing)
    else
      var (d, ok) := DoorOf(c, store).Actuate(pin, if value.flag then Locked else Unlocked);
      (Controller(d.state, d.board.gpio, d.board.sent, ok),
       if d.state == c.state then Nothing else Publishing(DoorIsLocked, BoolValue(d.state == Locked)))
  }

  function Respond(c: Controller, value: SignalValue): (Controller, Effect) {
    (c, if value.BoolValue? then Publishing(DoorResponse, IntValue(if c.ok then 0 else 1)) else Nothing)
  }

  function Rank(path: SignalPath): nat {
    if path == DoorCommand then 1 else 0
  }

  function DoorNet(pin: nat): Net<Controller> {
    Net(Rank, [Callback(1, [(c, store, value) => Obey(pin, c, store, value), (c, _, value) => Respond(c, value)])])
  }

  lemma DoorRanked(pin: nat)
    ensures Ranked(DoorNet(pin))
  {
    forall c: Controller, store: Store, value: SignalValue
      ensures Allowed(DoorNet(pin), 1, Obey(pin, c, store, value).1)
      ensures Allowed(DoorNet(pin), 1, Respond(c, value).1)
    {
    }
    hide Obey;
    hide Respond;
    var sections := DoorNet(pin).callbacks[0].sections;
    assert Obeys(DoorNet(pin), 1, sections[0]);
    assert Obeys(DoorNet(pin), 1, sections[1]);
  }

  /** The door alone listens to commands, and nobody to what it publishes. */
  predicate DoorWired(subscribers: Subscriptions) {
    && SubscribersOf(subscribers, DoorCommand) == [0]
    && DoorIsLocked !in subscribers && DoorResponse !in subscribers
  }

  lemma UnheardPublish(net: Net<Controller>, bus: Bus<Controller>, path: SignalPath, value: SignalValue)
    requires Ranked(net) && AllFit(net, bus.subscribers) && path !in bus.subscribers
    ensures Publish(net, bus, path, value) == bus.(store := bus.store[path := value])
  {
  }

  lemma OneCallback(net: Net<Controller>, bus: Bus<Controller>, path: SignalPath, value: SignalValue)
    requires Ranked(net) && AllFit(net, bus.subscribers) && SubscribersOf(bus.subscribers, path) == [0]
    requires Fits(net, path, 0)
    ensures Publish(net, bus, path, value) ==
            RunSections(net, bus.(store := bus.store[path := value], calls := bus.calls + [CallMade(path, value, 0)]),
                        path, value, 0, |net.callbacks[0].sections|)
  {
    var stored := bus.(store := bus.store[path := value]);
    assert [0][..0] == [];
    assert CallAll(net, stored, path, value, [0][..0]) == stored;
    hide RunSections;
  }

  /** A section whose publication nobody hears. */
  lemma NextSection(net: Net<Controller>, bus: Bus<Controller>, path: SignalPath, value: SignalValue, n: nat)
    requires Ranked(net) && AllFit(net, bus.subscribers) && Fits(net, path, 0) && n < |net.callbacks[0].sections|
    ensures var before := RunSections(net, bus, path, value, 0, n);
            var (inner, effect) := net.callbacks[0].sections[n](before.inner, before.store, value);
            !effect.Subscribing? && (effect.Publishing? ==> effect.path !in before.subscribers) ==>
              RunSections(net, bus, path, value, 0, n + 1) ==
              before.(inner := inner,
              store := if effect.Publishing? then before.store[effect.path := effect.value] else before.store)
  {
    var before := RunSections(net, bus, path, value, 0, n);
    var (inner, effect) := net.callbacks[0].sections[n](before.inner, before.store, value);
    assert Obeys(net, net.callbacks[0].level, net.callbacks[0].sections[n]);
    if effect.Publishing? && effect.path !in before.subscribers {
      UnheardPublish(net, before.(inner := inner), effect.path, effect.value);
    }
    hide Publish;
  }

  lemma SectionsOf(pin: nat, c: Controller, store: Store, value: SignalValue)
    ensures DoorNet(pin).callbacks[0].sections[0](c, store, value) == Obey(pin, c, store, value)
    ensures DoorNet(pin).callbacks[0].sections[1](c, store, value) == Respond(c, value)
  {
    hide Obey;
    hide Respond;
  }

  /** What a section publishes, if anything, is in the store afterwards. */
  function Effected(store: Store, effect: Effect): Store {
    if effect.Publishing? then store[effect.path := effect.value] else store
  }

  predicate Unheard(effect: Effect) {
    !effect.Subscribing? && (effect.Publishing? ==> effect.path == DoorIsLocked || effect.path == DoorResponse)
  }

  lemma ObeyThenRespond(pin: nat, c: Controller, store: Store, value: SignalValue)
    ensures var (c1, e1) := Obey(pin, c, store, value);
            var (c2, e2) := Respond(c1, value);
            && Unheard(e1) && Unheard(e2)
            && DoorOf(c2, Effected(Effected(store, e1), e2)) == DoorOf(c, store).OnCommand(pin, value)
  {
    hide Unsafe;
  }

  lemma TwoSections(pin: nat, bus: Bus<Controller>, value: SignalValue)
    requires Ranked(DoorNet(pin)) && AllFit(DoorNet(pin), bus.subscribers) && DoorWired(bus.subscribers)
    ensures var r := RunSections(DoorNet(pin), bus, DoorCommand, value, 0, 2);
            && r.subscribers == bus.subscribers
            && DoorOf(r.inner, r.store) == DoorOf(bus.inner, bus.store).OnCommand(pin, value)
  {
    var net := DoorNet(pin);
    assert RunSections(net, bus, DoorCommand, value, 0, 0) == bus;
    hide RunSections;
    hide Publish;
    hide Ranked;
    hide AllFit;
    hide Obey;
    hide Respond;
    hide DoorOf;
    hide Door.OnCommand;
    ObeyThenRespond(pin, bus.inner, bus.store, value);
    SectionsOf(pin, bus.inner, bus.store, value);
    NextSection(net, bus, DoorCommand, value, 0);
    var b1 := RunSections(net, bus, DoorCommand, value, 0, 1);
    SectionsOf(pin, b1.inner, b1.store, value);
    NextSection(net, bus, DoorCommand, value, 1);
    hide DoorNet;
  }

  /** A command on the bus does to controller and bus what the ECU's command step does, and calls the door once. */
  lemma CommandCascade(w: Wiring, s: Ecu, bus: Bus<Controller>, value: SignalValue)
    requires DoorWired(bus.subscribers) && AllFit(DoorNet(w.lockPin), bus.subscribers)
    requires DoorOf(bus.inner, bus.store) == s.DoorPart()
    ensures Ranked(DoorNet(w.lockPin))
    ensures var r := Publish(DoorNet(w.lockPin), bus, DoorCommand, value);
            && Step(w, s, DoorCommandSignal(value)) == s.WithDoor(DoorOf(r.inner, r.store))
            && CallsAt(r.calls, DoorCommand) == CallsAt(bus.calls, DoorCommand) + [CallMade(DoorCommand, value, 0)]
  {
    hide Step;
    hide Door.OnCommand;
    var net := DoorNet(w.lockPin);
    CommandStep(w, s, value);
    DoorRanked(w.lockPin);
    OneCallback(net, bus, DoorCommand, value);
    var called := bus.calls + [CallMade(DoorCommand, value, 0)];
    var stored := bus.(store := bus.store[DoorCommand := value], calls := called);
    TwoSections(w.lockPin, stored, value);
    PublishEffect(net, bus, DoorCommand, value);
    assert Made(DoorCommand, value, [0]) == [CallMade(DoorCommand, value, 0)];
    hide Publish;
    hide RunSections;
    hide CallsAt;
    hide Ranked;
    hide AllFit;
  }
}
