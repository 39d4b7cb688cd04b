/**
 * The in-process signal bus: a publish stores the value and then calls a snapshot of the path's subscribers,
 * who may read the bus, publish and subscribe themselves.
 */
module SignalCascade {
  import opened Ports

  /** What a callback does to the bus at the end of one of its sections. */
  datatype Effect =
    | Nothing
    | Publishing(path: SignalPath, value: SignalValue)
    | Subscribing(path: SignalPath, callback: nat)

  /** From the subscribers' own state, the store and the value called with: the new state and one effect. */
  type Section<!S> = (S, Store, SignalValue) -> (S, Effect)

  /** A callback runs its sections in order; `level` bounds the ranks it publishes to. */
  datatype Callback<!S> = Callback(level: nat, sections: seq<Section<S>>)

  datatype Net<!S> = Net(rank: SignalPath -> nat, callbacks: seq<Callback<S>>)

  datatype CallMade = CallMade(path: SignalPath, value: SignalValue, callback: nat)

  type Subscriptions = map<SignalPath, seq<nat>>

  datatype Bus<S> = Bus(store: Store, subscribers: Subscriptions, inner: S, calls: seq<CallMade>)

  function SubscribersOf(subscribers: Subscriptions, path: SignalPath): seq<nat> {
    if path in subscribers then subscribers[path] else []
  }

  /** A callback fits a path if all it publishes to ranks below the path. */
  predicate Fits<S>(net: Net<S>, path: SignalPath, callback: nat) {
    callback < |net.callbacks| && net.callbacks[callback].level <= net.rank(path)
  }

  predicate Allowed<S>(net: Net<S>, level: nat, e: Effect) {
    match e
    case Nothing => true
    case Publishing(path, _) => net.rank(path) < level
    case Subscribing(path, callback) => Fits(net, path, callback)
  }

  ghost predicate Obeys<S(!new)>(net: Net<S>, level: nat, section: Section<S>) {
    forall s: S, store: Store, value: SignalValue :: Allowed(net, level, section(s, store, value).1)
  }

  /** Signals can be ranked so that every callback publishes below the paths it is subscribed to. */
  ghost predicate Ranked<S(!new)>(net: Net<S>) {
    forall c, i :: 0 <= c < |net.callbacks| && 0 <= i < |net.callbacks[c].sections| ==>
                     Obeys(net, net.callbacks[c].level, net.callbacks[c].sections[i])
  }

  ghost predicate AllFit<S>(net: Net<S>, subscribers: Subscriptions) {
    forall path, c :: path in subscribers && c in subscribers[path] ==> Fits(net, path, c)
  }

  // ----- What a publish does -----

  ghost function Publish<S(!new)>(net: Net<S>, bus: Bus<S>, path: SignalPath, value: SignalValue): (r: Bus<S>)
    requires Ranked(net) && AllFit(net, bus.subscribers)
    ensures AllFit(net, r.subscribers)
    decreases net.rank(path), 3, 0
  {
    CallAll(net, bus.(store := bus.store[path := value]), path, value, SubscribersOf(bus.subscribers, path))
  }

  ghost function CallAll<S(!new)>(
    net: Net<S>, bus: Bus<S>, path: SignalPath, value: SignalValue, callbacks: seq<nat>): (r: Bus<S>)
    requires Ranked(net) && AllFit(net, bus.subscribers)
    requires forall c :: c in callbacks ==> Fits(net, path, c)
    ensures AllFit(net, r.subscribers)
    decreases net.rank(path), 2, |callbacks|
  {
    if callbacks == [] then bus
    else
      var n := |callbacks| - 1;
      var before := CallAll(net, bus, path, value, callbacks[..n]);
      assert callbacks[n] in callbacks && Fits(net, path, callbacks[n]);
      var called := before.(calls := before.calls + [CallMade(path, value, callbacks[n])]);
      RunSections(net, called, path, value, callbacks[n], |net.callbacks[callbacks[n]].sections|)
  }

  /** The first n sections of a callback. */
  ghost function RunSections<S(!new)>(
    net: Net<S>, bus: Bus<S>, path: SignalPath, value: SignalValue, callback: nat, n: nat): (r: Bus<S>)
    requires Ranked(net) && AllFit(net, bus.subscribers) && Fits(net, path, callback)
    requires n <= |net.callbacks[callback].sections|
    ensures AllFit(net, r.subscribers)
    decreases net.rank(path), 1, n
  {
    if n == 0 then bus
    else
      var before := RunSections(net, bus, path, value, callback, n - 1);
      var section := net.callbacks[callback].sections[n - 1];
      assert Obeys(net, net.callbacks[callback].level, section);
      var (inner, effect) := section(before.inner, before.store, value);
      Apply(net, before.(inner := inner), net.callbacks[callback].level, effect)
  }

  ghost function Apply<S(!new)>(net: Net<S>, bus: Bus<S>, level: nat, effect: Effect): (r: Bus<S>)
    requires Ranked(net) && AllFit(net, bus.subscribers) && Allowed(net, level, effect)
    ensures AllFit(net, r.subscribers)
    decreases level, 0, 0
  {
    match effect
    case Nothing => bus
    case Publishing(p, v) => Publish(net, bus, p, v)
    case Subscribing(p, c) => bus.(subscribers := bus.subscribers[p := SubscribersOf(bus.subscribers, p) + [c]])
  }

  // ----- What holds afterwards -----

  function CallsAt(calls: seq<CallMade>, path: SignalPath): seq<CallMade> {
    if calls == [] then []
    else
      var before, c := CallsAt(calls[..|calls| - 1], path), calls[|calls| - 1];
      if c.path == path then before + [c] else before
  }

  function Made(path: SignalPath, value: SignalValue, callbacks: seq<nat>): (made: seq<CallMade>)
    ensures |made| == |callbacks|
  {
    seq(|callbacks|, i requires 0 <= i < |callbacks| => CallMade(path, value, callbacks[i]))
  }

  predicate SameAt(a: Store, b: Store, path: SignalPath) {
    (path in a <==> path in b) && (path in a ==> a[path] == b[path])
  }

  /** Paths ranked at or above the level keep their values and see no call. */
  ghost predicate Untouched<S>(net: Net<S>, level: nat, a: Bus<S>, b: Bus<S>) {
    forall p :: net.rank(p) >= level ==> SameAt(a.store, b.store, p) && CallsAt(a.calls, p) == CallsAt(b.calls, p)
  }

  lemma CallsAppend(calls: seq<CallMade>, c: CallMade)
    ensures forall p :: CallsAt(calls + [c], p) == CallsAt(calls, p) + if c.path == p then [c] else []
  {
    assert (calls + [c])[..|calls|] == calls;
  }

  lemma {:induction false} SectionsBelow<S(!new)>(
    net: Net<S>, bus: Bus<S>, path: SignalPath, value: SignalValue, callback: nat, n: nat)
    requires Ranked(net) && AllFit(net, bus.subscribers) && Fits(net, path, callback)
    requires n <= |net.callbacks[callback].sections|
    ensures Untouched(net, net.callbacks[callback].level, bus, RunSections(net, bus, path, value, callback, n))
    decreases net.rank(path), 1, n
  {
    if n > 0 {
      SectionsBelow(net, bus, path, value, callback, n - 1);
      var before := RunSections(net, bus, path, value, callback, n - 1);
      var section := net.callbacks[callback].sections[n - 1];
      assert Obeys(net, net.callbacks[callback].level, section);
      var (inner, effect) := section(before.inner, before.store, value);
      ApplyBelow(net, before.(inner := inner), net.callbacks[callback].level, effect);
    }
  }

  lemma ApplyBelow<S(!new)>(net: Net<S>, bus: Bus<S>, level: nat, effect: Effect)
    requires Ranked(net) && AllFit(net, bus.subscribers) && Allowed(net, level, effect)
    ensures Untouched(net, level, bus, Apply(net, bus, level, effect))
    decreases level, 0, 0
  {
    if effect.Publishing? {
      PublishEffect(net, bus, effect.path, effect.value);
    }
    hide Publish;
  }

  /** Of the paths ranked at least as high as the published one, only that one has seen calls: those made. */
  ghost predicate Called<S>(net: Net<S>, path: SignalPath, made: seq<CallMade>, a: Bus<S>, b: Bus<S>) {
    forall p :: net.rank(p) >= net.rank(path) ==>
                  && SameAt(a.store, b.store, p)
                  && CallsAt(b.calls, p) == CallsAt(a.calls, p) + if p == path then made else []
  }

  lemma OneMoreCall<S>(
    net: Net<S>, path: SignalPath, made: seq<CallMade>, call: CallMade, level: nat, a: Bus<S>, b: Bus<S>, r: Bus<S>)
    requires call.path == path && level <= net.rank(path)
    requires Called(net, path, made, a, b)
    requires Untouched(net, level, b.(calls := b.calls + [call]), r)
    ensures Called(net, path, made + [call], a, r)
  {
    CallsAppend(b.calls, call);
    hide CallsAt;
    assert CallsAt(a.calls, path) + made + [call] == CallsAt(a.calls, path) + (made + [call]);
  }

  lemma {:induction false} CallAllEffect<S(!new)>(
    net: Net<S>, bus: Bus<S>, path: SignalPath, value: SignalValue, callbacks: seq<nat>)
    requires Ranked(net) && AllFit(net, bus.subscribers)
    requires forall c :: c in callbacks ==> Fits(net, path, c)
    ensures Called(net, path, Made(path, value, callbacks), bus, CallAll(net, bus, path, value, callbacks))
    decreases net.rank(path), 2, |callbacks|
  {
    hide Ranked;
    hide AllFit;
    hide CallsAt;
    hide Untouched;
    if callbacks == [] {
      assert Made(path, value, callbacks) == [];
    } else {
      var n := |callbacks| - 1;
      var before := CallAll(net, bus, path, value, callbacks[..n]);
      var call := CallMade(path, value, callbacks[n]);
      var called := before.(calls := before.calls + [call]);
      assert callbacks[n] in callbacks && Fits(net, path, callbacks[n]);
      hide Called;
      CallAllEffect(net, bus, path, value, callbacks[..n]);
      var sections := |net.callbacks[callbacks[n]].sections|;
      assert AllFit(net, called.subscribers);
      SectionsBelow(net, called, path, value, callbacks[n], sections);
      OneMoreCall(net, path, Made(path, value, callbacks[..n]), call, net.callbacks[callbacks[n]].level,
                  bus, before, RunSections(net, called, path, value, callbacks[n], sections));
      assert Made(path, value, callbacks) == Made(path, value, callbacks[..n]) + [call];
    }
  }

  /**
   * Every publish returns; it leaves the published value in place, calls each subscriber of the path once
   * and in order, and touches no other path of the same or a higher rank.
   */
  lemma PublishEffect<S(!new)>(net: Net<S>, bus: Bus<S>, path: SignalPath, value: SignalValue)
    requires Ranked(net) && AllFit(net, bus.subscribers)
    ensures var r := Publish(net, bus, path, value);
            && path in r.store && r.store[path] == value
            && CallsAt(r.calls, path) ==
               CallsAt(bus.calls, path) + Made(path, value, SubscribersOf(bus.subscribers, path))
            && forall p :: p != path && net.rank(p) >= net.rank(path) ==>
                 SameAt(bus.store, r.store, p) && CallsAt(r.calls, p) == CallsAt(bus.calls, p)
    decreases net.rank(path), 3, 0
  {
    hide CallAll;
    hide Ranked;
    hide CallsAt;
    CallAllEffect(net, bus.(store := bus.store[path := value]), path, value, SubscribersOf(bus.subscribers, path));
  }

  // ----- The bus object -----

  class InProcessSignalBus<S(!new)> {
    ghost const net: Net<S>
    const callbacks: seq<Callback<S>>
    var store: Store
    var subscribers: Subscriptions
    var inner: S
    ghost var calls: seq<CallMade>

    constructor (ghost net: Net<S>, callbacks: seq<Callback<S>>, inner: S)
      requires callbacks == net.callbacks
      ensures this.net == net && this.callbacks == callbacks && View() == Bus(map[], map[], inner, [])
    {
      this.net, this.callbacks, this.inner := net, callbacks, inner;
      store, subscribers, calls := map[], map[], [];
    }

    ghost function View(): Bus<S>
      reads this
    {
      Bus(store, subscribers, inner, calls)
    }

    method Subscribe(path: SignalPath, callback: nat)
      modifies this`subscribers
      ensures subscribers == old(subscribers)[path := SubscribersOf(old(subscribers), path) + [callback]]
    {
      subscribers := subscribers[path := SubscribersOf(subscribers, path) + [callback]];
    }

    function Get(path: SignalPath): Option<SignalValue>
      reads this`store
    {
      if path in store then Some(store[path]) else None
    }

    method PublishSignal(path: SignalPath, value: SignalValue)
      requires callbacks == net.callbacks && Ranked(net) && AllFit(net, subscribers)
      modifies this
      ensures View() == Publish(net, old(View()), path, value)
      decreases net.rank(path), 3, 0
    {
      store := store[path := value];
      var snapshot := SubscribersOf(subscribers, path);
      ghost var stored := View();
      for i := 0 to |snapshot|
        invariant AllFit(net, subscribers)
        invariant View() == CallAll(net, stored, path, value, snapshot[..i])
      {
        assert snapshot[..i + 1][..i] == snapshot[..i];
        assert snapshot[i] in snapshot;
        calls := calls + [CallMade(path, value, snapshot[i])];
        CallBack(path, value, snapshot[i]);
      }
      assert snapshot[..|snapshot|] == snapshot;
    }

    /** Runs one callback. */
    method CallBack(ghost path: SignalPath, value: SignalValue, callback: nat)
      requires callbacks == net.callbacks && Ranked(net) && AllFit(net, subscribers) && Fits(net, path, callback)
      modifies this
      ensures View() ==
              RunSections(net, old(View()), path, value, callback, |net.callbacks[callback].sections|)
      decreases net.rank(path), 2, 0
    {
      hide Apply;
      hide Allowed;
      hide AllFit;
      hide SubscribersOf;
      var sections := callbacks[callback].sections;
      ghost var called := View();
      for n := 0 to |sections|
        invariant AllFit(net, subscribers)
        invariant View() == RunSections(net, called, path, value, callback, n)
      {
        assert Obeys(net, net.callbacks[callback].level, sections[n]);
        var (next, effect) := sections[n](inner, store, value);
        inner := next;
        Perform(net.callbacks[callback].level, effect);
      }
    }

    method Perform(ghost level: nat, effect: Effect)
      requires callbacks == net.callbacks && Ranked(net) && AllFit(net, subscribers) && Allowed(net, level, effect)
      modifies this
      ensures View() == Apply(net, old(View()), level, effect)
      decreases level, 0, 0
    {
      match effect {
        case Nothing =>
        case Publishing(p, v) => PublishSignal(p, v);
        case Subscribing(p, c) => Subscribe(p, c);
      }
    }
  }
}
