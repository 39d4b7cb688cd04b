/** A tester's bytes in, and what the bytes that come back say of the ECU. */
module TesterView {
  import opened Ports
  import opened BodyEcu
  import opened WholeRuns
  import opened DoIp
  import opened DoIpAnswers
  import opened EcuOverDoIp
  import opened UdsLaw

  /** The request in a diagnostic message, addresses cut off. */
  function RequestIn(f: Frame): Input
    requires Asks(f)
  {
    DiagnosticRequest(f.payload[4..])
  }

  function Inputs(asked: seq<Frame>): seq<Input>
    requires forall f :: f in asked ==> Asks(f)
  {
    if asked == [] then []
    else
      assert asked[|asked| - 1] in asked;
      Inputs(asked[..|asked| - 1]) + [RequestIn(asked[|asked| - 1])]
  }

  /** The run so far, continued by the first k requests. */
  function Until(run: seq<Input>, asked: seq<Frame>, k: nat): seq<Input>
    requires k <= |asked| && forall f :: f in asked ==> Asks(f)
  {
    run + Inputs(asked[..k])
  }

  /** Reply k answers request k as the law of diagnostic responses says, between the states before and after it. */
  ghost predicate Truthful(w: Wiring, run: seq<Input>, asked: seq<Frame>, replies: seq<seq<byte>>, k: nat)
    requires k < |asked| == |replies| && forall f :: f in asked ==> Asks(f)
  {
    assert asked[k] in asked;
    Responded(w, After(w, POWERED, Until(run, asked, k)), After(w, POWERED, Until(run, asked, k + 1)),
              asked[k].payload[4..], replies[k])
  }

  lemma OneRequest(w: Wiring, run: seq<Input>, r: seq<byte>)
    ensures var s := After(w, POWERED, run);
            var (s', out) := Uds(w, s, r);
            s' == After(w, POWERED, run + [DiagnosticRequest(r)]) && Responded(w, s, s', r, out)
  {
    hide Uds;
    hide Responded;
    OneMoreStep(w, POWERED, run, DiagnosticRequest(r));
    hide After;
    UdsResponds(w, After(w, POWERED, run), r);
  }

  lemma InputsMore(run: seq<Input>, asked: seq<Frame>, f: Frame)
    requires (forall g :: g in asked ==> Asks(g)) && Asks(f)
    ensures Until(run, asked + [f], |asked| + 1) == Until(run, asked, |asked|) + [RequestIn(f)]
    ensures forall k :: 0 <= k <= |asked| ==> Until(run, asked + [f], k) == Until(run, asked, k)
  {
    assert (asked + [f])[..|asked|] == asked[..|asked|] == asked;
    assert (asked + [f])[..|asked| + 1] == asked + [f];
    assert forall k :: 0 <= k <= |asked| ==> (asked + [f])[..k] == asked[..k];
  }

  lemma StillTruthful(w: Wiring, run: seq<Input>, asked: seq<Frame>, replies: seq<seq<byte>>, f: Frame, r: seq<byte>)
    requires |replies| == |asked| && (forall g :: g in asked ==> Asks(g)) && Asks(f)
    requires forall k :: 0 <= k < |asked| ==> Truthful(w, run, asked, replies, k)
    requires Responded(w, After(w, POWERED, Until(run, asked, |asked|)),
                       After(w, POWERED, Until(run, asked, |asked|) + [RequestIn(f)]), f.payload[4..], r)
    ensures forall k :: 0 <= k <= |asked| ==> Truthful(w, run, asked + [f], replies + [r], k)
  {
    hide After;
    hide Responded;
    InputsMore(run, asked, f);
    hide Until;
    forall k | 0 <= k < |asked|
      ensures Truthful(w, run, asked + [f], replies + [r], k)
    {
      assert Truthful(w, run, asked, replies, k);
    }
  }

  lemma {:induction false} RepliesTruthful(w: Wiring, run: seq<Input>, s: Ecu, fs: seq<Frame>)
    requires s == After(w, POWERED, run)
    ensures var asked, replies := Filter(fs, Asks), RepliesTo(EcuHandler(w), s, fs);
            && |replies| == |asked|
            && Handled(EcuHandler(w), s, fs) == After(w, POWERED, Until(run, asked, |asked|))
            && forall k :: 0 <= k < |asked| ==> Truthful(w, run, asked, replies, k)
  {
    hide After;
    hide Uds;
    hide Responded;
    hide Truthful;
    if fs == [] {
      assert run + [] == run;
    } else {
      var before, f := fs[..|fs| - 1], fs[|fs| - 1];
      RepliesTruthful(w, run, s, before);
      if Asks(f) {
        var asked, replies := Filter(before, Asks), RepliesTo(EcuHandler(w), s, before);
        var r := f.payload[4..];
        OneRequest(w, Until(run, asked, |asked|), r);
        InputsMore(run, asked, f);
        hide Until;
        StillTruthful(w, run, asked, replies, f, Uds(w, Handled(EcuHandler(w), s, before), r).1);
      }
    }
  }

  /**
   * Whatever bytes a tester sends after whatever run: the k-th diagnostic message it gets back is addressed to the
   * sender of its k-th request, and says of the ECU what the law of diagnostic responses promises.
   */
  lemma TesterTold(w: Wiring, run: seq<Input>, v: Service<Ecu>, input: seq<byte>)
    requires v.state == After(w, POWERED, run) && v.sent == []
    ensures var asked := Filter(ParseAll(input).0, Asks);
            var told := OfKind(Serve(EcuHandler(w), v, input).sent, 0x8001);
            var replies := RepliesTo(EcuHandler(w), v.state, ParseAll(input).0);
            && |told| == |asked| == |replies|
            && (forall k :: 0 <= k < |asked| ==>
                  && |asked[k].payload| >= 5
                  && told[k].payload == [0x0E, 0x80] + asked[k].payload[..2] + replies[k])
            && (forall k :: 0 <= k < |asked| ==> Truthful(w, run, asked, replies, k))
  {
    hide After;
    hide Serve;
    hide ParseAll;
    hide Truthful;
    hide Transcript;
    hide RepliesTo;
    hide Handled;
    hide AnswerTo;
    ServeTranscript(EcuHandler(w), v, input);
    RepliesTruthful(w, run, v.state, ParseAll(input).0);
    var fs := ParseAll(input).0;
    var answers := Transcript(EcuHandler(w), v.state, fs);
    NackApart(answers);
    assert answers + [] == answers;
    var asked, replies := Filter(fs, Asks), RepliesTo(EcuHandler(w), v.state, fs);
    forall k | 0 <= k < |asked|
      ensures |asked[k].payload| >= 5 && k < |OfKind(answers, 0x8001)|
      ensures OfKind(answers, 0x8001)[k].payload == [0x0E, 0x80] + asked[k].payload[..2] + replies[k]
    {
      ExchangedAt(answers, fs, replies, k);
    }
    hide Filter;
    hide Acknowledgements;
    hide DoIpAnswers.Replies;
    hide Activations;
  }

  /** The refusal at the end is no diagnostic message. */
  lemma NackApart(answers: seq<Frame>)
    ensures OfKind(answers + [Frame(0x0000, [0])], 0x8001) == OfKind(answers, 0x8001)
  {
    FilterMore(answers, Frame(0x0000, [0]), DoIpAnswers.IsKind(0x8001));
  }
}
