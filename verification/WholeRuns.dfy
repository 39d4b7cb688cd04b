/** From an exact condition for one step to an exact condition for whole runs of the ECU. */
module WholeRuns {
  import opened BodyEcu

  /** At power-on and after every step of the run. */
  ghost predicate Throughout(w: Wiring, run: seq<Input>, good: Ecu -> bool) {
    forall k :: 0 <= k <= |run| ==> good(After(w, POWERED, run[..k]))
  }

  /** No step of the run, taken where the run takes it. */
  ghost predicate Never(w: Wiring, run: seq<Input>, bad: (Ecu, Input) -> bool) {
    forall k :: 0 <= k < |run| ==> !bad(After(w, POWERED, run[..k]), run[k])
  }

  /** In a good reachable state, the next state is good iff the step is not bad. */
  predicate Exact(w: Wiring, run: seq<Input>, i: Input, good: Ecu -> bool, bad: (Ecu, Input) -> bool) {
    var s := After(w, POWERED, run);
    good(s) ==> (good(Step(w, s, i)) <==> !bad(s, i))
  }

  lemma GoodAt(w: Wiring, run: seq<Input>, k: nat, good: Ecu -> bool)
    requires Throughout(w, run, good) && k <= |run|
    ensures good(After(w, POWERED, run[..k]))
  {
    hide After;
  }

  lemma NotBadAt(w: Wiring, run: seq<Input>, k: nat, bad: (Ecu, Input) -> bool)
    requires Never(w, run, bad) && k < |run|
    ensures !bad(After(w, POWERED, run[..k]), run[k])
  {
    hide After;
  }

  lemma ThroughoutLonger(w: Wiring, run: seq<Input>, before: seq<Input>, good: Ecu -> bool)
    requires run != [] && before == run[..|run| - 1]
    ensures Throughout(w, run, good) <==> Throughout(w, before, good) && good(After(w, POWERED, run))
  {
    hide After;
    assert run[..|run|] == run;
    if Throughout(w, run, good) {
      GoodAt(w, run, |run|, good);
      forall k | 0 <= k <= |before|
        ensures good(After(w, POWERED, before[..k]))
      {
        assert before[..k] == run[..k];
        GoodAt(w, run, k, good);
      }
    }
    if Throughout(w, before, good) && good(After(w, POWERED, run)) {
      forall k | 0 <= k <= |run|
        ensures good(After(w, POWERED, run[..k]))
      {
        if k <= |before| {
          assert before[..k] == run[..k];
          GoodAt(w, before, k, good);
        }
      }
    }
  }

  lemma NeverLonger(w: Wiring, run: seq<Input>, before: seq<Input>, bad: (Ecu, Input) -> bool)
    requires run != [] && before == run[..|run| - 1]
    ensures Never(w, run, bad) <==> Never(w, before, bad) && !bad(After(w, POWERED, before), run[|run| - 1])
  {
    hide After;
    if Never(w, run, bad) {
      NotBadAt(w, run, |before|, bad);
      forall k | 0 <= k < |before|
        ensures !bad(After(w, POWERED, before[..k]), before[k])
      {
        assert before[..k] == run[..k];
        NotBadAt(w, run, k, bad);
      }
    }
    if Never(w, before, bad) && !bad(After(w, POWERED, before), run[|run| - 1]) {
      forall k | 0 <= k < |run|
        ensures !bad(After(w, POWERED, run[..k]), run[k])
      {
        if k < |before| {
          assert before[..k] == run[..k];
          NotBadAt(w, before, k, bad);
        }
      }
    }
  }

  lemma OneMoreStep(w: Wiring, s: Ecu, run: seq<Input>, i: Input)
    ensures After(w, s, run + [i]) == Step(w, After(w, s, run), i)
  {
    hide Step;
    assert (run + [i])[..|run|] == run;
  }

  /** What is good at power-on and exactly kept by steps that are not bad is good throughout iff no step is bad. */
  lemma {:induction false} GoodIffNeverBad(w: Wiring, run: seq<Input>, good: Ecu -> bool, bad: (Ecu, Input) -> bool)
    requires good(POWERED) && forall before, i :: Exact(w, before, i, good, bad)
    ensures Throughout(w, run, good) <==> Never(w, run, bad)
  {
    if run == [] {
      assert run[..0] == [] && After(w, POWERED, []) == POWERED;
    } else {
      hide After;
      hide Step;
      var before, i := run[..|run| - 1], run[|run| - 1];
      assert run == before + [i];
      GoodIffNeverBad(w, before, good, bad);
      ThroughoutLonger(w, run, before, good);
      NeverLonger(w, run, before, bad);
      OneMoreStep(w, POWERED, before, i);
      assert Exact(w, before, i, good, bad);
      if Throughout(w, before, good) {
        assert before[..|before|] == before;
        GoodAt(w, before, |before|, good);
      }
      hide Throughout;
      hide Never;
    }
  }
}
