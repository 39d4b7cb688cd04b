/** Every frame a tester gets over a connection, byte by byte (ISO 13400-2:2019). */
module DoIpAnswers {
  import opened Ports
  import opened DoIp

  // ----- What was received -----

  /** A routing activation request, long enough to carry the tester's address, activation type and reserved bytes. */
  predicate Activates(f: Frame) {
    f.kind == 0x0005 && |f.payload| >= 7
  }

  /** A diagnostic message with two addresses and a request. */
  predicate Asks(f: Frame) {
    f.kind == 0x8001 && |f.payload| >= 5
  }

  predicate Probes(f: Frame) {
    f.kind == 0x0007
  }

  function Filter(fs: seq<Frame>, keep: Frame -> bool): (kept: seq<Frame>)
    ensures forall f :: f in kept ==> keep(f)
  {
    if fs == [] then []
    else
      var before, f := Filter(fs[..|fs| - 1], keep), fs[|fs| - 1];
      if keep(f) then before + [f] else before
  }

  lemma {:induction false} FilterConcat(a: seq<Frame>, b: seq<Frame>, keep: Frame -> bool)
    ensures Filter(a + b, keep) == Filter(a, keep) + Filter(b, keep)
  {
    if b == [] {
      assert a + b == a;
    } else {
      FilterConcat(a, b[..|b| - 1], keep);
      assert (a + b)[..|a + b| - 1] == a + b[..|b| - 1];
    }
  }

  // ----- What the handler makes of it -----

  /** The handler's state after the requests of all diagnostic messages, addresses cut off. */
  function Handled<S>(handle: Handler<S>, state: S, fs: seq<Frame>): S {
    if fs == [] then state
    else
      var before, f := Handled(handle, state, fs[..|fs| - 1]), fs[|fs| - 1];
      if Asks(f) then handle(before, f.payload[4..]).0 else before
  }

  /** What it replies, request by request. */
  function RepliesTo<S>(handle: Handler<S>, state: S, fs: seq<Frame>): seq<seq<byte>> {
    if fs == [] then []
    else
      var before, f := RepliesTo(handle, state, fs[..|fs| - 1]), fs[|fs| - 1];
      if Asks(f) then before + [handle(Handled(handle, state, fs[..|fs| - 1]), f.payload[4..]).1] else before
  }

  /** The tester is whoever activated routing last. */
  function Tester(start: uint16, fs: seq<Frame>): uint16 {
    if fs == [] then start
    else
      var f := fs[|fs| - 1];
      if Activates(f) then f.payload[0] as int * 256 + f.payload[1] else Tester(start, fs[..|fs| - 1])
  }

  // ----- One frame -----

  /** To the tester: its own address comes first in what it sends, and last in what it gets. */
  function Acknowledgement(f: Frame): Frame
    requires Asks(f)
  {
    Frame(0x8002, f.payload[2..4] + f.payload[..2] + [0])
  }

  function Reply(f: Frame, reply: seq<byte>): Frame
    requires Asks(f)
  {
    Frame(0x8001, [0x0E, 0x80] + f.payload[..2] + reply)
  }

  function Activation(f: Frame): Frame
    requires Activates(f)
  {
    Frame(0x0006, f.payload[..2] + [0x0E, 0x80, 0x10, 0, 0, 0, 0])
  }

  const ALIVE := Frame(0x0008, [0x0E, 0x80])

  /** The answer to one frame, given the handler's reply. */
  function AnswerTo(f: Frame, reply: seq<byte>): seq<Frame> {
    if Activates(f) then [Activation(f)]
    else if Asks(f) then [Acknowledgement(f)] + [Reply(f, reply)]
    else if Probes(f) then [ALIVE]
    else []
  }

  lemma AddressBytes(hi: byte, lo: byte)
    ensures Address(Word(hi, lo)) == [hi, lo]
  {
  }

  lemma EntityBytes()
    ensures Address(ENTITY) == [0x0E, 0x80]
  {
  }

  lemma OneAnswer<S>(handle: Handler<S>, v: Service<S>, f: Frame)
    ensures var v' := Answer(handle, v, f);
            && v'.sent == v.sent + AnswerTo(f, if Asks(f) then handle(v.state, f.payload[4..]).1 else [])
            && v'.state == (if Asks(f) then handle(v.state, f.payload[4..]).0 else v.state)
            && v'.tester == (if Activates(f) then f.payload[0] as int * 256 + f.payload[1] else v.tester)
  {
    hide Address;
    var p := f.payload;
    EntityBytes();
    if |p| >= 4 {
      AddressBytes(p[0], p[1]);
      AddressBytes(p[2], p[3]);
      assert p[..2] == [p[0], p[1]] && p[2..4] == [p[2], p[3]];
    }
    if Activates(f) {
      assert p[..2] + [0x0E, 0x80] + [0x10, 0, 0, 0, 0] == Activation(f).payload;
    } else if Asks(f) {
      var reply := handle(v.state, p[4..]).1;
      assert v.sent + [Acknowledgement(f)] + [Reply(f, reply)] == v.sent + AnswerTo(f, reply);
    }
  }

  // ----- A whole connection -----

  /** All answers to the frames, in order. */
  function Transcript<S>(handle: Handler<S>, state: S, fs: seq<Frame>): seq<Frame> {
    if fs == [] then []
    else
      var before, f := fs[..|fs| - 1], fs[|fs| - 1];
      Transcript(handle, state, before) +
      AnswerTo(f, if Asks(f) then handle(Handled(handle, state, before), f.payload[4..]).1 else [])
  }

  lemma {:induction false} AllAnswered<S>(handle: Handler<S>, v: Service<S>, fs: seq<Frame>)
    ensures var v' := AnswerAll(handle, v, fs);
            && v'.sent == v.sent + Transcript(handle, v.state, fs)
            && v'.state == Handled(handle, v.state, fs)
            && v'.tester == Tester(v.tester, fs)
  {
    hide Answer;
    hide AnswerTo;
    if fs != [] {
      var before, f := fs[..|fs| - 1], fs[|fs| - 1];
      AllAnswered(handle, v, before);
      AnswerConcat(handle, v, before, [f]);
      assert fs == before + [f];
      OneAnswer(handle, AnswerAll(handle, v, before), f);
      assert [f][1..] == [];
    }
  }

  function IsKind(kind: uint16): Frame -> bool {
    (f: Frame) => f.kind == kind
  }

  function OfKind(fs: seq<Frame>, kind: uint16): seq<Frame> {
    Filter(fs, IsKind(kind))
  }

  function Acknowledgements(asked: seq<Frame>): seq<Frame>
    requires forall f :: f in asked ==> Asks(f)
  {
    seq(|asked|, k requires 0 <= k < |asked| => assert asked[k] in asked; Acknowledgement(asked[k]))
  }

  function Replies(asked: seq<Frame>, replies: seq<seq<byte>>): seq<Frame>
    requires |replies| == |asked| && forall f :: f in asked ==> Asks(f)
  {
    seq(|asked|, k requires 0 <= k < |asked| => assert asked[k] in asked; Reply(asked[k], replies[k]))
  }

  function Activations(routed: seq<Frame>): seq<Frame>
    requires forall f :: f in routed ==> Activates(f)
  {
    seq(|routed|, k requires 0 <= k < |routed| => assert routed[k] in routed; Activation(routed[k]))
  }

  function Alives(n: nat): seq<Frame> {
    seq(n, _ => ALIVE)
  }

  /** The k-th acknowledgement, reply, activation and alive answer belong to the k-th frame that asks for them. */
  ghost predicate Exchanged(sent: seq<Frame>, fs: seq<Frame>, replies: seq<seq<byte>>) {
    var asked := Filter(fs, Asks);
    && |replies| == |asked|
    && OfKind(sent, 0x8002) == Acknowledgements(asked)
    && OfKind(sent, 0x8001) == Replies(asked, replies)
    && OfKind(sent, 0x0006) == Activations(Filter(fs, Activates))
    && OfKind(sent, 0x0008) == Alives(|Filter(fs, Probes)|)
  }

  lemma FilterOne(f: Frame, keep: Frame -> bool)
    ensures Filter([f], keep) == if keep(f) then [f] else []
  {
    assert [f][..0] == [];
  }

  lemma AnswerKinds(f: Frame, reply: seq<byte>)
    ensures var answer := AnswerTo(f, reply);
            && OfKind(answer, 0x8002) == (if Asks(f) then [Acknowledgement(f)] else [])
            && OfKind(answer, 0x8001) == (if Asks(f) then [Reply(f, reply)] else [])
            && OfKind(answer, 0x0006) == (if Activates(f) then [Activation(f)] else [])
            && OfKind(answer, 0x0008) == (if Probes(f) then [ALIVE] else [])
  {
    if Activates(f) {
      OneKind(Activation(f));
    } else if Asks(f) {
      OneKind(Acknowledgement(f));
      OneKind(Reply(f, reply));
      forall kind: uint16
        ensures OfKind(AnswerTo(f, reply), kind) ==
                OfKind([Acknowledgement(f)], kind) + OfKind([Reply(f, reply)], kind)
      {
        FilterConcat([Acknowledgement(f)], [Reply(f, reply)], IsKind(kind));
      }
    } else if Probes(f) {
      OneKind(ALIVE);
    }
  }

  lemma OneKind(f: Frame)
    ensures forall kind: uint16 :: OfKind([f], kind) == if f.kind == kind then [f] else []
  {
    forall kind: uint16
      ensures OfKind([f], kind) == if f.kind == kind then [f] else []
    {
      FilterOne(f, IsKind(kind));
    }
  }

  lemma OneMore(asked: seq<Frame>, f: Frame, replies: seq<seq<byte>>, reply: seq<byte>)
    requires |replies| == |asked| && (forall g :: g in asked ==> Asks(g)) && Asks(f)
    ensures Acknowledgements(asked + [f]) == Acknowledgements(asked) + [Acknowledgement(f)]
    ensures Replies(asked + [f], replies + [reply]) == Replies(asked, replies) + [Reply(f, reply)]
  {
    hide Acknowledgement;
    hide Reply;
  }

  lemma OneMoreActivation(routed: seq<Frame>, f: Frame)
    requires (forall g :: g in routed ==> Activates(g)) && Activates(f)
    ensures Activations(routed + [f]) == Activations(routed) + [Activation(f)]
  {
    hide Activation;
  }

  /** What is kept of one frame more. */
  lemma FilterMore(fs: seq<Frame>, f: Frame, keep: Frame -> bool)
    ensures Filter(fs + [f], keep) == if keep(f) then Filter(fs, keep) + [f] else Filter(fs, keep)
  {
    FilterConcat(fs, [f], keep);
    FilterOne(f, keep);
  }

  lemma SentKinds(sent: seq<Frame>, f: Frame, reply: seq<byte>)
    ensures var sent' := sent + AnswerTo(f, reply);
            && OfKind(sent', 0x8002) == OfKind(sent, 0x8002) + (if Asks(f) then [Acknowledgement(f)] else [])
            && OfKind(sent', 0x8001) == OfKind(sent, 0x8001) + (if Asks(f) then [Reply(f, reply)] else [])
            && OfKind(sent', 0x0006) == OfKind(sent, 0x0006) + (if Activates(f) then [Activation(f)] else [])
            && OfKind(sent', 0x0008) == OfKind(sent, 0x0008) + (if Probes(f) then [ALIVE] else [])
  {
    AnswerKinds(f, reply);
    FilterConcat(sent, AnswerTo(f, reply), IsKind(0x8002));
    FilterConcat(sent, AnswerTo(f, reply), IsKind(0x8001));
    FilterConcat(sent, AnswerTo(f, reply), IsKind(0x0006));
    FilterConcat(sent, AnswerTo(f, reply), IsKind(0x0008));
    hide Filter;
    hide AnswerTo;
  }

  /** One frame more, and its answer. */
  lemma OneExchangeMore(sent: seq<Frame>, fs: seq<Frame>, replies: seq<seq<byte>>, f: Frame, reply: seq<byte>)
    requires Exchanged(sent, fs, replies)
    ensures Exchanged(sent + AnswerTo(f, reply), fs + [f], if Asks(f) then replies + [reply] else replies)
  {
    hide Filter;
    hide OfKind;
    hide AnswerTo;
    hide Acknowledgements;
    hide Replies;
    hide Activations;
    SentKinds(sent, f, reply);
    FilterMore(fs, f, Asks);
    FilterMore(fs, f, Activates);
    FilterMore(fs, f, Probes);
    if Asks(f) {
      OneMore(Filter(fs, Asks), f, replies, reply);
    }
    if Activates(f) {
      OneMoreActivation(Filter(fs, Activates), f);
    }
    assert Alives(|Filter(fs, Probes)| + 1) == Alives(|Filter(fs, Probes)|) + [ALIVE];
  }

  lemma {:induction false} TranscriptExchanged<S>(handle: Handler<S>, state: S, fs: seq<Frame>)
    ensures Exchanged(Transcript(handle, state, fs), fs, RepliesTo(handle, state, fs))
  {
    hide Exchanged;
    hide AnswerTo;
    if fs == [] {
      NothingExchanged();
    } else {
      var before, f := fs[..|fs| - 1], fs[|fs| - 1];
      assert fs == before + [f];
      TranscriptExchanged(handle, state, before);
      OneExchangeMore(Transcript(handle, state, before), before, RepliesTo(handle, state, before), f,
                      if Asks(f) then handle(Handled(handle, state, before), f.payload[4..]).1 else []);
    }
  }

  /** What that means for the k-th request. */
  lemma ExchangedAt(sent: seq<Frame>, fs: seq<Frame>, replies: seq<seq<byte>>, k: nat)
    requires Exchanged(sent, fs, replies) && k < |Filter(fs, Asks)|
    ensures var f := Filter(fs, Asks)[k];
            && |f.payload| >= 5
            && k < |OfKind(sent, 0x8002)| == |OfKind(sent, 0x8001)| == |replies|
            && OfKind(sent, 0x8002)[k].payload == f.payload[2..4] + f.payload[..2] + [0]
            && OfKind(sent, 0x8001)[k].payload == [0x0E, 0x80] + f.payload[..2] + replies[k]
  {
    hide Filter;
    assert Filter(fs, Asks)[k] in Filter(fs, Asks);
  }

  /** A header of eight bytes that does not begin with version 3 and its complement. */
  predicate OtherVersion(rest: seq<byte>) {
    |rest| >= 8 && (rest[0] != 0x03 || rest[1] != 0xFC)
  }

  lemma StopsAt(rest: seq<byte>)
    ensures ParseFront(rest).BadVersion? <==> OtherVersion(rest)
  {
  }

  lemma NothingExchanged()
    ensures Exchanged([], [], [])
  {
  }

  /**
   * Whatever bytes come in: the frames sent are the transcript of the frames received, with a refusal at the end iff
   * a header of another version follows them, and each answer has the addresses of its own request, swapped.
   */
  lemma ServeTranscript<S>(handle: Handler<S>, v: Service<S>, input: seq<byte>)
    requires v.sent == []
    ensures var fs := ParseAll(input).0;
            var v', answers := Serve(handle, v, input), Transcript(handle, v.state, fs);
            && EncodeAll(fs) <= input
            && v'.sent == answers + (if OtherVersion(input[|EncodeAll(fs)|..]) then [Frame(0x0000, [0])] else [])
            && Exchanged(answers, fs, RepliesTo(handle, v.state, fs))
            && v'.state == Handled(handle, v.state, fs) && v'.tester == Tester(v.tester, fs)
  {
    hide ParseAll;
    hide Exchanged;
    hide AnswerAll;
    hide Transcript;
    var (fs, end) := ParseAll(input);
    AllAnswered(handle, v, fs);
    TranscriptExchanged(handle, v.state, fs);
    assert v.sent + Transcript(handle, v.state, fs) == Transcript(handle, v.state, fs);
    EncodeParsed(input);
    StopsAt(input[|EncodeAll(fs)|..]);
    hide EncodeAll;
    hide ParseFront;
  }
}
