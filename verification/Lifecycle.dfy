/** The lifecycle manager: components initialised and run level by level, shut down in reverse. */
module Lifecycle {
  import opened Ports

  type ComponentId = nat

  datatype Entry = Entry(component: ComponentId, level: byte)

  /** A call on a component, made for one level. */
  datatype Call =
    | Init(component: ComponentId, level: byte)
    | Run(component: ComponentId, level: byte)
    | Shutdown(component: ComponentId, level: byte)

  // ----- The stable sort -----

  /** Behind all entries of its own or a lower level. */
  function InsertByLevel(e: Entry, sorted: seq<Entry>): seq<Entry> {
    if sorted == [] || e.level < sorted[|sorted| - 1].level then
      if sorted == [] then [e] else InsertByLevel(e, sorted[..|sorted| - 1]) + [sorted[|sorted| - 1]]
    else sorted + [e]
  }

  function StableSort(entries: seq<Entry>): seq<Entry> {
    if entries == [] then []
    else InsertByLevel(entries[|entries| - 1], StableSort(entries[..|entries| - 1]))
  }

  ghost predicate SortedByLevel(s: seq<Entry>) {
    forall i, j :: 0 <= i < j < |s| ==> s[i].level <= s[j].level
  }

  /** The components of one level, in the order of the list. */
  function AtLevel(entries: seq<Entry>, level: byte): seq<ComponentId> {
    if entries == [] then []
    else
      var before, e := AtLevel(entries[..|entries| - 1], level), entries[|entries| - 1];
      if e.level == level then before + [e.component] else before
  }

  lemma AtLevelAppend(entries: seq<Entry>, e: Entry, level: byte)
    ensures AtLevel(entries + [e], level) ==
            if e.level == level then AtLevel(entries, level) + [e.component] else AtLevel(entries, level)
  {
    assert (entries + [e])[..|entries|] == entries;
  }

  lemma {:induction false} InsertSame(e: Entry, sorted: seq<Entry>)
    ensures multiset(InsertByLevel(e, sorted)) == multiset(sorted) + multiset{e}
  {
    if sorted != [] && e.level < sorted[|sorted| - 1].level {
      InsertSame(e, sorted[..|sorted| - 1]);
      assert sorted == sorted[..|sorted| - 1] + [sorted[|sorted| - 1]];
    }
  }

  lemma {:induction false} InsertSorts(e: Entry, sorted: seq<Entry>)
    requires SortedByLevel(sorted)
    ensures SortedByLevel(InsertByLevel(e, sorted))
    ensures multiset(InsertByLevel(e, sorted)) == multiset(sorted) + multiset{e}
  {
    InsertSame(e, sorted);
    if sorted == [] {
    } else if e.level < sorted[|sorted| - 1].level {
      var start, last := sorted[..|sorted| - 1], sorted[|sorted| - 1];
      InsertSorts(e, start);
      NoneAbove(start + [e], InsertByLevel(e, start), last);
    } else {
      forall i | 0 <= i < |sorted|
        ensures sorted[i].level <= e.level
      {
        assert sorted[i].level <= sorted[|sorted| - 1].level;
      }
    }
  }

  lemma {:induction false} InsertStable(e: Entry, sorted: seq<Entry>, level: byte)
    ensures AtLevel(InsertByLevel(e, sorted), level) ==
            if e.level == level then AtLevel(sorted, level) + [e.component] else AtLevel(sorted, level)
  {
    hide AtLevel;
    if sorted == [] {
      AtLevelAppend([], e, level);
      assert [] + [e] == [e];
    } else if e.level < sorted[|sorted| - 1].level {
      var start, last := sorted[..|sorted| - 1], sorted[|sorted| - 1];
      assert sorted == start + [last];
      InsertStable(e, start, level);
      AtLevelAppend(InsertByLevel(e, start), last, level);
      AtLevelAppend(start, last, level);
    } else {
      AtLevelAppend(sorted, e, level);
    }
  }

  lemma NoneAbove(parts: seq<Entry>, r: seq<Entry>, last: Entry)
    requires multiset(r) == multiset(parts) && SortedByLevel(r)
    requires forall x :: x in parts ==> x.level <= last.level
    ensures SortedByLevel(r + [last])
  {
    forall i | 0 <= i < |r|
      ensures r[i].level <= last.level
    {
      assert r[i] in multiset(r);
      assert r[i] in parts;
    }
  }

  /** The sort reorders the entries by level and keeps the order of registration within each level. */
  lemma {:induction false} StableSortCorrect(entries: seq<Entry>, level: byte)
    ensures SortedByLevel(StableSort(entries))
    ensures multiset(StableSort(entries)) == multiset(entries)
    ensures AtLevel(StableSort(entries), level) == AtLevel(entries, level)
  {
    if entries != [] {
      var start, last := entries[..|entries| - 1], entries[|entries| - 1];
      assert entries == start + [last];
      StableSortCorrect(start, level);
      InsertSorts(last, StableSort(start));
      InsertStable(last, StableSort(start), level);
      AtLevelAppend(start, last, level);
    }
  }

  // ----- The call traces -----

  function Inits(cs: seq<ComponentId>, level: byte): seq<Call> {
    seq(|cs|, i requires 0 <= i < |cs| => Init(cs[i], level))
  }

  function Runs(cs: seq<ComponentId>, level: byte): seq<Call> {
    seq(|cs|, i requires 0 <= i < |cs| => Run(cs[i], level))
  }

  function Shutdowns(cs: seq<ComponentId>, level: byte): seq<Call> {
    seq(|cs|, i requires 0 <= i < |cs| => Shutdown(cs[i], level))
  }

  function Reverse<T>(s: seq<T>): seq<T> {
    if s == [] then [] else Reverse(s[1..]) + [s[0]]
  }

  /** Levels 1 to `level`: all of a level's inits, then its runs, then the next level. */
  function StartTrace(entries: seq<Entry>, level: byte): seq<Call> {
    if level == 0 then []
    else
      var cs := AtLevel(entries, level);
      StartTrace(entries, level - 1) + Inits(cs, level) + Runs(cs, level)
  }

  function StopTrace(entries: seq<Entry>, level: byte): seq<Call> {
    if level == 0 then []
    else Shutdowns(Reverse(AtLevel(entries, level)), level) + StopTrace(entries, level - 1)
  }

  lemma NextLevel(
    entries: seq<Entry>, level: byte, calls: seq<Call>, before: seq<Call>, inits: seq<Call>, runs: seq<Call>)
    requires level > 0 && before == StartTrace(entries, level - 1)
    requires inits == Inits(AtLevel(entries, level), level) && runs == Runs(AtLevel(entries, level), level)
    ensures calls + before + inits + runs == calls + StartTrace(entries, level)
  {
    hide AtLevel;
    hide Inits;
    hide Runs;
    assert StartTrace(entries, level) == before + inits + runs;
  }

  /** The last entry of a list is the first to be shut down, if it is of the level. */
  lemma OneStopped(entries: seq<Entry>, i: nat, level: byte)
    requires i < |entries|
    ensures var rest := Shutdowns(Reverse(AtLevel(entries[..i], level)), level);
            Shutdowns(Reverse(AtLevel(entries[..i + 1], level)), level) ==
            if entries[i].level == level then [Shutdown(entries[i].component, level)] + rest else rest
  {
    assert entries[..i + 1] == entries[..i] + [entries[i]];
    AtLevelAppend(entries[..i], entries[i], level);
    ReverseAppend(AtLevel(entries[..i], level), entries[i].component);
    hide AtLevel;
    hide Reverse;
  }

  lemma NoneLeft(entries: seq<Entry>, level: byte)
    ensures Shutdowns(Reverse(AtLevel(entries[..0], level)), level) == []
  {
  }

  lemma NextStop(entries: seq<Entry>, level: byte, before: seq<Call>, stops: seq<Call>)
    requires level > 0 && stops == Shutdowns(Reverse(AtLevel(entries, level)), level)
    ensures before + stops + StopTrace(entries, level - 1) == before + StopTrace(entries, level)
  {
    hide AtLevel;
    hide Shutdowns;
    hide Reverse;
  }

  class LifecycleManager {
    var entries: seq<Entry>
    var currentLevel: byte
    var running: bool
    var calls: seq<Call>

    constructor ()
      ensures entries == [] && currentLevel == 0 && !running && calls == []
    {
      entries, currentLevel, running, calls := [], 0, false, [];
    }

    method AddComponent(component: ComponentId, level: byte)
      modifies this`entries
      ensures entries == old(entries) + [Entry(component, level)]
    {
      entries := entries + [Entry(component, level)];
    }

    /** Level 255 is excluded: there the byte counter of the loop never gets past the limit. */
    method TransitionToLevel(level: byte)
      requires level < 255
      modifies this
      ensures entries == StableSort(old(entries)) && currentLevel == level && running
      ensures calls == old(calls) + StartTrace(old(entries), level)
    {
      hide StableSort;
      hide AtLevel;
      hide Inits;
      hide Runs;
      assert StartTrace(entries, 0) == [];
      hide StartTrace;
      entries := StableSort(entries);
      var lv: byte := 1;
      while lv <= level
        invariant 1 <= lv <= level + 1
        invariant entries == StableSort(old(entries))
        invariant calls == old(calls) + StartTrace(old(entries), lv - 1)
        decreases level - lv
      {
        StableSortCorrect(old(entries), lv);
        ghost var before := StartTrace(old(entries), lv - 1);
        InitLevel(lv);
        RunLevel(lv);
        ghost var cs := AtLevel(entries, lv);
        NextLevel(old(entries), lv, old(calls), before, Inits(cs, lv), Runs(cs, lv));
        lv := lv + 1;
      }
      currentLevel := level;
      running := true;
    }

    method InitLevel(lv: byte)
      modifies this`calls
      ensures calls == old(calls) + Inits(AtLevel(entries, lv), lv)
    {
      for i := 0 to |entries|
        invariant calls == old(calls) + Inits(AtLevel(entries[..i], lv), lv)
      {
        assert entries[..i + 1] == entries[..i] + [entries[i]];
        AtLevelAppend(entries[..i], entries[i], lv);
        if entries[i].level != lv {
          continue;
        }
        calls := calls + [Init(entries[i].component, lv)];
      }
      assert entries[..|entries|] == entries;
    }

    method RunLevel(lv: byte)
      modifies this`calls
      ensures calls == old(calls) + Runs(AtLevel(entries, lv), lv)
    {
      for i := 0 to |entries|
        invariant calls == old(calls) + Runs(AtLevel(entries[..i], lv), lv)
      {
        assert entries[..i + 1] == entries[..i] + [entries[i]];
        AtLevelAppend(entries[..i], entries[i], lv);
        if entries[i].level != lv {
          continue;
        }
        calls := calls + [Run(entries[i].component, lv)];
      }
      assert entries[..|entries|] == entries;
    }

    method ShutdownLevel(lv: byte)
      modifies this`calls
      ensures calls == old(calls) + Shutdowns(Reverse(AtLevel(entries, lv)), lv)
    {
      hide AtLevel;
      hide Shutdowns;
      hide Reverse;
      var i := |entries|;
      assert entries[..i] == entries;
      NoneLeft(entries, lv);
      while i > 0
        invariant 0 <= i <= |entries|
        invariant calls + Shutdowns(Reverse(AtLevel(entries[..i], lv)), lv) ==
                  old(calls) + Shutdowns(Reverse(AtLevel(entries, lv)), lv)
      {
        i := i - 1;
        OneStopped(entries, i, lv);
        if entries[i].level != lv {
          continue;
        }
        ghost var before, rest := calls, Shutdowns(Reverse(AtLevel(entries[..i], lv)), lv);
        calls := calls + [Shutdown(entries[i].component, lv)];
        assert before + ([Shutdown(entries[i].component, lv)] + rest) == calls + rest;
      }
    }

    method ShutdownAll()
      modifies this
      ensures entries == old(entries) && !running
      ensures calls == old(calls) + if old(running) then StopTrace(entries, old(currentLevel)) else []
      ensures currentLevel == if old(running) then 0 else old(currentLevel)
    {
      if !running {
        return;
      }
      assert StopTrace(entries, 0) == [];
      hide StopTrace;
      hide Shutdowns;
      hide Reverse;
      hide AtLevel;
      var lv := currentLevel;
      while lv >= 1
        invariant 0 <= lv <= currentLevel == old(currentLevel) && entries == old(entries)
        invariant calls + StopTrace(entries, lv) == old(calls) + StopTrace(entries, currentLevel)
      {
        ghost var before := calls;
        ShutdownLevel(lv);
        NextStop(entries, lv, before, Shutdowns(Reverse(AtLevel(entries, lv)), lv));
        lv := lv - 1;
      }
      currentLevel := 0;
      running := false;
    }
  }

  lemma {:induction false} ReverseAppend<T>(s: seq<T>, x: T)
    ensures Reverse(s + [x]) == [x] + Reverse(s)
  {
    if s != [] {
      ReverseAppend(s[1..], x);
      assert (s + [x])[1..] == s[1..] + [x];
    }
  }

  lemma {:induction false} ReverseConcat<T>(a: seq<T>, b: seq<T>)
    ensures Reverse(a + b) == Reverse(b) + Reverse(a)
  {
    if a == [] {
      assert a + b == b;
      assert Reverse(b) + Reverse(a) == Reverse(b);
    } else {
      ReverseConcat(a[1..], b);
      assert (a + b)[1..] == a[1..] + b;
      assert Reverse(b) + Reverse(a[1..]) + [a[0]] == Reverse(b) + (Reverse(a[1..]) + [a[0]]);
    }
  }

  // ----- What the traces mean -----

  /** The components initialised, in order. */
  function Initialised(entries: seq<Entry>, level: byte): seq<ComponentId> {
    if level == 0 then [] else Initialised(entries, level - 1) + AtLevel(entries, level)
  }

  /** The components that calls of one kind name, in order. */
  datatype Kind = Initialising | Running | Stopping

  predicate IsKind(c: Call, k: Kind) {
    match k
    case Initialising => c.Init?
    case Running => c.Run?
    case Stopping => c.Shutdown?
  }

  function Named(calls: seq<Call>, k: Kind): seq<ComponentId> {
    if calls == [] then []
    else
      var before, c := Named(calls[..|calls| - 1], k), calls[|calls| - 1];
      if IsKind(c, k) then before + [c.component] else before
  }

  lemma {:induction false} NamedAppend(a: seq<Call>, b: seq<Call>, k: Kind)
    ensures Named(a + b, k) == Named(a, k) + Named(b, k)
  {
    if b == [] {
      assert a + b == a;
    } else {
      NamedAppend(a, b[..|b| - 1], k);
      assert (a + b)[..|a + b| - 1] == a + b[..|b| - 1];
    }
  }

  lemma OneMoreNamed(before: seq<Call>, c: Call, k: Kind, kind: Kind, cs: seq<ComponentId>)
    requires cs != [] && c.component == cs[|cs| - 1] && (IsKind(c, k) <==> k == kind)
    requires Named(before, k) == if k == kind then cs[..|cs| - 1] else []
    ensures Named(before + [c], k) == if k == kind then cs else []
  {
    assert (before + [c])[..|before|] == before;
    assert cs == cs[..|cs| - 1] + [c.component];
  }

  lemma LastCalled(cs: seq<ComponentId>, level: byte)
    requires cs != []
    ensures var start, c := cs[..|cs| - 1], cs[|cs| - 1];
            && Inits(cs, level) == Inits(start, level) + [Init(c, level)]
            && Runs(cs, level) == Runs(start, level) + [Run(c, level)]
            && Shutdowns(cs, level) == Shutdowns(start, level) + [Shutdown(c, level)]
  {
  }

  lemma {:induction false} NamedKinds(cs: seq<ComponentId>, level: byte, k: Kind)
    ensures Named(Inits(cs, level), k) == if k == Initialising then cs else []
    ensures Named(Runs(cs, level), k) == if k == Running then cs else []
    ensures Named(Shutdowns(cs, level), k) == if k == Stopping then cs else []
  {
    if cs == [] {
      assert Inits(cs, level) == [] && Runs(cs, level) == [] && Shutdowns(cs, level) == [];
    } else {
      hide Named;
      hide Inits;
      hide Runs;
      hide Shutdowns;
      var start, c := cs[..|cs| - 1], cs[|cs| - 1];
      NamedKinds(start, level, k);
      LastCalled(cs, level);
      OneMoreNamed(Inits(start, level), Init(c, level), k, Initialising, cs);
      OneMoreNamed(Runs(start, level), Run(c, level), k, Running, cs);
      OneMoreNamed(Shutdowns(start, level), Shutdown(c, level), k, Stopping, cs);
    }
  }

  lemma OneLevelStarted(entries: seq<Entry>, level: byte, k: Kind)
    requires level > 0
    ensures Named(StartTrace(entries, level), k) ==
            Named(StartTrace(entries, level - 1), k) + if k == Stopping then [] else AtLevel(entries, level)
  {
    hide Named;
    hide Inits;
    hide Runs;
    hide AtLevel;
    var cs := AtLevel(entries, level);
    NamedAppend(StartTrace(entries, level - 1), Inits(cs, level), k);
    NamedAppend(StartTrace(entries, level - 1) + Inits(cs, level), Runs(cs, level), k);
    NamedKinds(cs, level, k);
  }

  lemma OneLevelStopped(entries: seq<Entry>, level: byte, k: Kind)
    requires level > 0
    ensures Named(StopTrace(entries, level), k) ==
            (if k == Stopping then Reverse(AtLevel(entries, level)) else []) + Named(StopTrace(entries, level - 1), k)
  {
    hide Named;
    hide Shutdowns;
    hide AtLevel;
    hide Reverse;
    var cs := Reverse(AtLevel(entries, level));
    NamedAppend(Shutdowns(cs, level), StopTrace(entries, level - 1), k);
    NamedKinds(cs, level, k);
  }

  /** Inits and runs name the same components in the same order, and shutting down is the exact reverse. */
  lemma {:induction false} Mirror(entries: seq<Entry>, level: byte, k: Kind)
    ensures Named(StartTrace(entries, level), k) == if k == Stopping then [] else Initialised(entries, level)
    ensures Named(StopTrace(entries, level), k) == if k == Stopping then Reverse(Initialised(entries, level)) else []
  {
    hide AtLevel;
    if level == 0 {
      assert Named([], k) == [] && Reverse<ComponentId>([]) == [];
    } else {
      hide Named;
      hide Reverse;
      Mirror(entries, level - 1, k);
      OneLevelStarted(entries, level, k);
      OneLevelStopped(entries, level, k);
      ReverseConcat(Initialised(entries, level - 1), AtLevel(entries, level));
    }
  }

  /** How often a component is registered at levels 1 to L. */
  function Registrations(entries: seq<Entry>, level: byte, c: ComponentId): nat {
    if entries == [] then 0
    else
      var e := entries[|entries| - 1];
      Registrations(entries[..|entries| - 1], level, c) + if e.component == c && 1 <= e.level <= level then 1 else 0
  }

  lemma {:induction false} OneLevelMore(entries: seq<Entry>, level: byte, c: ComponentId)
    requires level > 0
    ensures Registrations(entries, level, c) ==
            Registrations(entries, level - 1, c) + multiset(AtLevel(entries, level))[c]
  {
    if entries != [] {
      OneLevelMore(entries[..|entries| - 1], level, c);
    }
  }

  lemma {:induction false} NoLevel(entries: seq<Entry>, c: ComponentId)
    ensures Registrations(entries, 0, c) == 0
  {
    if entries != [] {
      NoLevel(entries[..|entries| - 1], c);
    }
  }

  /** A component is initialised (and, by the mirror, run) once per registration at levels 1 to L, and not otherwise. */
  lemma {:induction false} StartedOncePerRegistration(entries: seq<Entry>, level: byte, c: ComponentId)
    ensures multiset(Initialised(entries, level))[c] == Registrations(entries, level, c)
  {
    if level == 0 {
      NoLevel(entries, c);
    } else {
      StartedOncePerRegistration(entries, level - 1, c);
      OneLevelMore(entries, level, c);
    }
  }

  /** The phase a call belongs to: a level's inits come before its runs, and these before the next level's inits. */
  function Phase(call: Call): nat {
    2 * call.level as int + if call.Run? then 1 else 0
  }

  ghost predicate InPhaseOrder(calls: seq<Call>, last: nat) {
    && (forall i :: 0 <= i < |calls| ==> Phase(calls[i]) <= last)
    && (forall i, j :: 0 <= i < j < |calls| ==> Phase(calls[i]) <= Phase(calls[j]))
  }

  lemma NextPhase(calls: seq<Call>, more: seq<Call>, last: nat, phase: nat)
    requires InPhaseOrder(calls, last) && last <= phase
    requires forall i :: 0 <= i < |more| ==> Phase(more[i]) == phase
    ensures InPhaseOrder(calls + more, phase)
  {
  }

  /** The start trace goes through the phases in order, also where a component is registered at several levels. */
  lemma {:induction false} PhasesInOrder(entries: seq<Entry>, level: byte)
    ensures InPhaseOrder(StartTrace(entries, level), 2 * level + 1)
  {
    hide AtLevel;
    if level > 0 {
      PhasesInOrder(entries, level - 1);
      var cs, before := AtLevel(entries, level), StartTrace(entries, level - 1);
      NextPhase(before, Inits(cs, level), 2 * (level - 1) + 1, 2 * level);
      NextPhase(before + Inits(cs, level), Runs(cs, level), 2 * level, 2 * level + 1);
    }
  }

  /** A component is started before another if registered at a lower level, or earlier at the same. */
  predicate Before(entries: seq<Entry>, a: nat, b: nat)
    requires a < |entries| && b < |entries|
  {
    entries[a].level < entries[b].level || (entries[a].level == entries[b].level && a < b)
  }

  lemma {:induction false} RankOf(entries: seq<Entry>, a: nat)
    requires a < |entries|
    ensures var level, rank := entries[a].level, |AtLevel(entries[..a], entries[a].level)|;
            rank < |AtLevel(entries, level)| && AtLevel(entries, level)[rank] == entries[a].component
  {
    var start, level := entries[..|entries| - 1], entries[a].level;
    if a < |entries| - 1 {
      RankOf(start, a);
      assert start[..a] == entries[..a];
    }
  }

  lemma {:induction false} RanksGrow(entries: seq<Entry>, a: nat, b: nat)
    requires a < b <= |entries|
    ensures |AtLevel(entries[..a], entries[a].level)| < |AtLevel(entries[..b], entries[a].level)|
  {
    assert entries[..b][..b - 1] == entries[..b - 1];
    if a < b - 1 {
      RanksGrow(entries, a, b - 1);
    }
  }

  /** Where the start trace initialises and runs a registered component. */
  lemma {:induction false} Placed(entries: seq<Entry>, level: byte, a: nat) returns (p: nat, r: nat)
    requires a < |entries| && 1 <= entries[a].level <= level
    ensures var trace, e := StartTrace(entries, level), entries[a];
            && p < |trace| && trace[p] == Init(e.component, e.level)
            && r < |trace| && trace[r] == Run(e.component, e.level)
    ensures entries[a].level < level ==>
              p < |StartTrace(entries, level - 1)| && r < |StartTrace(entries, level - 1)|
    ensures entries[a].level == level ==>
              var before, rank := |StartTrace(entries, level - 1)|, |AtLevel(entries[..a], level)|;
              p == before + rank && r == before + |AtLevel(entries, level)| + rank
    decreases level
  {
    var before, cs := StartTrace(entries, level - 1), AtLevel(entries, level);
    assert StartTrace(entries, level) == before + Inits(cs, level) + Runs(cs, level);
    if entries[a].level == level {
      RankOf(entries, a);
      hide AtLevel;
      hide StartTrace;
      var rank := |AtLevel(entries[..a], level)|;
      p, r := |before| + rank, |before| + |cs| + rank;
    } else {
      hide AtLevel;
      p, r := Placed(entries, level - 1, a);
    }
  }

  ghost predicate Precedes(calls: seq<Call>, x: Call, y: Call) {
    exists p, q :: 0 <= p < q < |calls| && calls[p] == x && calls[q] == y
  }

  lemma StillPrecedes(before: seq<Call>, calls: seq<Call>, x: Call, y: Call)
    requires before <= calls && Precedes(before, x, y)
    ensures Precedes(calls, x, y)
  {
    var p, q :| 0 <= p < q < |before| && before[p] == x && before[q] == y;
    assert calls[p] == x && calls[q] == y;
  }

  lemma PrecedesAt(calls: seq<Call>, p: nat, q: nat)
    requires p < q < |calls|
    ensures Precedes(calls, calls[p], calls[q])
  {
  }

  /** Every registration at levels 1 to L is initialised and run at its own level, in the order of the registrations. */
  lemma {:induction false} StartedInOrder(entries: seq<Entry>, level: byte, a: nat, b: nat)
    requires a < |entries| && b < |entries| && Before(entries, a, b)
    requires 1 <= entries[a].level && entries[b].level <= level
    ensures var trace, e, f := StartTrace(entries, level), entries[a], entries[b];
            && Precedes(trace, Init(e.component, e.level), Init(f.component, f.level))
            && Precedes(trace, Run(e.component, e.level), Run(f.component, f.level))
  {
    hide AtLevel;
    hide Precedes;
    var trace, e, f := StartTrace(entries, level), entries[a], entries[b];
    if f.level < level {
      StartedInOrder(entries, level - 1, a, b);
      Longer(entries, level);
      hide StartTrace;
      StillPrecedes(StartTrace(entries, level - 1), trace, Init(e.component, e.level), Init(f.component, f.level));
      StillPrecedes(StartTrace(entries, level - 1), trace, Run(e.component, e.level), Run(f.component, f.level));
    } else {
      hide StartTrace;
      var p, r := Placed(entries, level, a);
      var q, t := Placed(entries, level, b);
      if e.level == level {
        RanksGrow(entries, a, b);
      }
      PrecedesAt(trace, p, q);
      PrecedesAt(trace, r, t);
    }
  }

  lemma Longer(entries: seq<Entry>, level: byte)
    requires level > 0
    ensures StartTrace(entries, level - 1) <= StartTrace(entries, level)
  {
    hide AtLevel;
  }

  /** The level counter is a byte: the start loop ends iff the limit is below 255. */
  lemma LevelLoopEnds(level: byte)
    ensures (exists k: nat :: CounterAfter(k) > level) <==> level < 255
  {
    if level < 255 {
      assert CounterAfter(level as int) == level + 1;
    }
  }

  /** The counter after k rounds, starting at 1. */
  function CounterAfter(k: nat): byte {
    (1 + k) % 0x100
  }

  // ----- One start, one shutdown -----

  /** A manager that starts once and shuts down has shut down what it initialised, in the exact reverse order. */
  method StartAndStop(manager: LifecycleManager, level: byte)
    requires level < 255
    modifies manager
    ensures |old(manager.calls)| <= |manager.calls|
    ensures var calls := manager.calls[|old(manager.calls)|..];
            && Named(calls, Running) == Named(calls, Initialising)
            && Named(calls, Stopping) == Reverse(Named(calls, Initialising))
  {
    hide Named;
    hide StartTrace;
    hide StopTrace;
    hide Initialised;
    hide Reverse;
    ghost var registered := manager.entries;
    manager.TransitionToLevel(level);
    StableSortKeepsStop(registered, level);
    manager.ShutdownAll();
    var calls := manager.calls[|old(manager.calls)|..];
    assert calls == StartTrace(registered, level) + StopTrace(registered, level);
    CallsOfKind(registered, level, Initialising);
    CallsOfKind(registered, level, Running);
    CallsOfKind(registered, level, Stopping);
  }

  lemma CallsOfKind(entries: seq<Entry>, level: byte, k: Kind)
    ensures Named(StartTrace(entries, level) + StopTrace(entries, level), k) ==
            if k == Stopping then Reverse(Initialised(entries, level)) else Initialised(entries, level)
  {
    hide Named;
    NamedAppend(StartTrace(entries, level), StopTrace(entries, level), k);
    Mirror(entries, level, k);
  }

  lemma {:induction false} StableSortKeepsStop(entries: seq<Entry>, level: byte)
    ensures StopTrace(StableSort(entries), level) == StopTrace(entries, level)
  {
    hide AtLevel;
    hide StableSort;
    if level > 0 {
      StableSortKeepsStop(entries, level - 1);
      StableSortCorrect(entries, level);
    }
  }
}
