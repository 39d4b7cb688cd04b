/**
 * Diagnostics over IP (ISO 13400-2:2019, generic header): frames cut out of a byte stream, answered in order.
 * The diagnostic handler is any function from its state and a request to a new state and a reply.
 */
module DoIp {
  import opened Ports

  const PROTOCOL_VERSION: byte := 0x03
  const INVERSE_VERSION: byte := 0xFC
  const HEADER_LENGTH := 8
  const MAX_PAYLOAD := 0x1_0000
  const ENTITY: uint16 := 0x0E80

  const GENERIC_NACK: uint16 := 0x0000
  const ROUTING_REQUEST: uint16 := 0x0005
  const ROUTING_RESPONSE: uint16 := 0x0006
  const ALIVE_REQUEST: uint16 := 0x0007
  const ALIVE_RESPONSE: uint16 := 0x0008
  const DIAGNOSTIC: uint16 := 0x8001
  const DIAGNOSTIC_ACK: uint16 := 0x8002

  // ----- Header -----

  datatype Header = Header(version: byte, inverse: byte, kind: uint16, length: uint32)

  function ParseHeader(data: seq<byte>): Header
    requires |data| == HEADER_LENGTH
  {
    Header(data[0], data[1], Word(data[2], data[3]),
           data[4] as int * 0x100_0000 + data[5] as int * 0x1_0000 + data[6] as int * 0x100 + data[7])
  }

  /** Four bytes are left for the length, so it is cut to 32 bits. */
  function SerializeHeader(kind: uint16, length: nat): (data: seq<byte>)
    ensures |data| == HEADER_LENGTH
  {
    [PROTOCOL_VERSION, INVERSE_VERSION, High(kind), Low(kind),
     length / 0x100 / 0x100 / 0x100 % 0x100, length / 0x100 / 0x100 % 0x100, length / 0x100 % 0x100, length % 0x100]
  }

  lemma LengthBytes(length: uint32)
    ensures length / 0x100 / 0x100 / 0x100 % 0x100 == length / 0x100_0000
    ensures length / 0x100 / 0x100 % 0x100 == length / 0x1_0000 % 0x100
  {
  }

  lemma HeaderRoundTrip(kind: uint16, length: uint32)
    ensures ParseHeader(SerializeHeader(kind, length)) == Header(PROTOCOL_VERSION, INVERSE_VERSION, kind, length)
  {
    var data := SerializeHeader(kind, length);
    assert Word(data[2], data[3]) == kind by {
      KindRoundTrip(kind);
    }
    hide Word;
    hide High;
    hide Low;
    assert data[4] as int * 0x100_0000 + data[5] as int * 0x1_0000 + data[6] as int * 0x100 + data[7] == length by {
      LengthBytes(length);
      FourBytes(length);
    }
  }

  lemma KindRoundTrip(kind: uint16)
    ensures Word(High(kind), Low(kind)) == kind
  {
  }

  // ----- Frames -----

  datatype Frame = Frame(kind: uint16, payload: seq<byte>)

  /** A frame whose payload a length field can announce. */
  predicate Sendable(f: Frame) {
    |f.payload| < 0x1_0000_0000
  }

  function Encode(f: Frame): (bytes: seq<byte>)
    ensures |bytes| == HEADER_LENGTH + |f.payload|
  {
    SerializeHeader(f.kind, |f.payload|) + f.payload
  }

  function EncodeAll(fs: seq<Frame>): seq<byte> {
    if fs == [] then [] else Encode(fs[0]) + EncodeAll(fs[1..])
  }

  /** What the front of a byte stream holds. */
  datatype Front =
    | Complete(frame: Frame, size: nat)
    | Short
    | BadVersion
    | TooLong

  function ParseFront(input: seq<byte>): (front: Front)
    ensures front.Complete? ==> HEADER_LENGTH <= front.size <= |input|
  {
    if |input| < HEADER_LENGTH then Short
    else
      var h := ParseHeader(input[..HEADER_LENGTH]);
      if h.version != PROTOCOL_VERSION || h.inverse != INVERSE_VERSION then BadVersion
      else if h.length > MAX_PAYLOAD then TooLong
      else if |input| < HEADER_LENGTH + h.length then Short
      else Complete(Frame(h.kind, input[HEADER_LENGTH..HEADER_LENGTH + h.length]), HEADER_LENGTH + h.length)
  }

  /** All complete frames of a stream, and what stops it: Short at the end, or a header that ends the connection. */
  function ParseAll(input: seq<byte>): (seq<Frame>, Front)
    decreases |input|
  {
    var front := ParseFront(input);
    match front
    case Complete(f, size) =>
      var (fs, end) := ParseAll(input[size..]);
      ([f] + fs, end)
    case _ => ([], front)
  }

  /** A receiver accepts payloads up to 64 KiB only. */
  predicate Receivable(f: Frame) {
    |f.payload| <= MAX_PAYLOAD
  }

  lemma ParseEncoded(f: Frame, rest: seq<byte>)
    requires Receivable(f)
    ensures ParseFront(Encode(f) + rest) == Complete(f, |Encode(f)|)
    ensures (Encode(f) + rest)[|Encode(f)|..] == rest
  {
    var input := Encode(f) + rest;
    HeaderRoundTrip(f.kind, |f.payload|);
    assert input[..HEADER_LENGTH] == SerializeHeader(f.kind, |f.payload|);
    assert input[HEADER_LENGTH..HEADER_LENGTH + |f.payload|] == f.payload;
    hide SerializeHeader;
    hide ParseHeader;
  }

  predicate AllReceivable(fs: seq<Frame>) {
    forall f :: f in fs ==> Receivable(f)
  }

  /** A stream of encoded frames parses back to exactly those frames, whatever follows them. */
  lemma {:induction false} ParseAllEncoded(fs: seq<Frame>, rest: seq<byte>)
    requires AllReceivable(fs)
    ensures ParseAll(EncodeAll(fs) + rest) == (fs + ParseAll(rest).0, ParseAll(rest).1)
  {
    hide Encode;
    hide ParseFront;
    if fs == [] {
      assert EncodeAll(fs) + rest == rest;
      assert fs + ParseAll(rest).0 == ParseAll(rest).0;
    } else {
      assert [fs[0]] + (fs[1..] + ParseAll(rest).0) == fs + ParseAll(rest).0;
      assert Receivable(fs[0]);
      ParseAllEncoded(fs[1..], rest);
      var more := EncodeAll(fs[1..]) + rest;
      ParseEncoded(fs[0], more);
      assert EncodeAll(fs) + rest == Encode(fs[0]) + more;
      assert fs == [fs[0]] + fs[1..];
    }
  }

  /** And what was parsed is what was sent: encoding the frames again gives the bytes consumed. */
  lemma {:induction false} EncodeParsed(input: seq<byte>)
    ensures var (fs, end) := ParseAll(input);
            && AllReceivable(fs)
            && EncodeAll(fs) <= input
            && ParseFront(input[|EncodeAll(fs)|..]) == end && !end.Complete?
    decreases |input|
  {
    hide Encode;
    var front := ParseFront(input);
    if front.Complete? {
      var rest := input[front.size..];
      FrontEncodes(input);
      hide ParseFront;
      EncodeParsed(rest);
      EncodeOneMore(front.frame, ParseAll(rest).0, rest, input);
    } else {
      assert input[0..] == input;
    }
  }

  lemma EncodeOneMore(f: Frame, fs: seq<Frame>, rest: seq<byte>, input: seq<byte>)
    requires Receivable(f) && AllReceivable(fs)
    requires EncodeAll(fs) <= rest && input == Encode(f) + rest
    ensures AllReceivable([f] + fs)
    ensures EncodeAll([f] + fs) <= input
    ensures input[|EncodeAll([f] + fs)|..] == rest[|EncodeAll(fs)|..]
  {
    hide Encode;
    assert ([f] + fs)[1..] == fs;
  }

  lemma FrontEncodes(input: seq<byte>)
    requires ParseFront(input).Complete?
    ensures var f := ParseFront(input).frame;
            && Receivable(f) && |Encode(f)| == ParseFront(input).size
            && Encode(f) == input[..ParseFront(input).size]
            && input == Encode(f) + input[ParseFront(input).size..]
  {
    hide ParseHeader;
    hide SerializeHeader;
    var h := input[..HEADER_LENGTH];
    HeaderBytes(h);
    var size := ParseFront(input).size;
    assert input[..size] == h + input[HEADER_LENGTH..size];
  }

  lemma HeaderBytes(data: seq<byte>)
    requires |data| == HEADER_LENGTH
    ensures var h := ParseHeader(data);
            h.version == PROTOCOL_VERSION && h.inverse == INVERSE_VERSION ==> SerializeHeader(h.kind, h.length) == data
  {
    var b4, b5, b6, b7 := data[4] as int, data[5] as int, data[6] as int, data[7] as int;
    var length := ParseHeader(data).length;
    assert length / 0x100 == b4 * 0x1_0000 + b5 * 0x100 + b6;
    assert length / 0x100 / 0x100 == b4 * 0x100 + b5;
    assert length / 0x100 / 0x100 / 0x100 == b4;
  }

  // ----- Answers -----

  function Address(a: uint16): seq<byte> {
    [High(a), Low(a)]
  }

  /** The tester's address, the handler's state and the frames sent so far. */
  datatype Service<S> = Service(tester: uint16, state: S, sent: seq<Frame>) {
    function Send(f: Frame): Service<S> {
      this.(sent := sent + [f])
    }
  }

  type Handler<!S> = (S, seq<byte>) -> (S, seq<byte>)

  /** A diagnostic message with room for two addresses and a request. */
  predicate CarriesRequest(f: Frame) {
    f.kind == DIAGNOSTIC && |f.payload| >= 5
  }

  /** How one frame is answered: routing activated, message acknowledged and then replied to, alive confirmed. */
  function Answer<S>(handle: Handler<S>, v: Service<S>, f: Frame): Service<S> {
    var p := f.payload;
    if f.kind == ROUTING_REQUEST && |p| >= 7 then
      var tester := Word(p[0], p[1]);
      v.(tester := tester).Send(Frame(ROUTING_RESPONSE, Address(tester) + Address(ENTITY) + [0x10, 0, 0, 0, 0]))
    else if CarriesRequest(f) then
      var source, target := Word(p[0], p[1]), Word(p[2], p[3]);
      var (state, reply) := handle(v.state, p[4..]);
      v.(state := state)
       .Send(Frame(DIAGNOSTIC_ACK, Address(target) + Address(source) + [0]))
       .Send(Frame(DIAGNOSTIC, Address(ENTITY) + Address(source) + reply))
    else if f.kind == ALIVE_REQUEST then
      v.Send(Frame(ALIVE_RESPONSE, Address(ENTITY)))
    else v
  }

  function AnswerAll<S>(handle: Handler<S>, v: Service<S>, fs: seq<Frame>): Service<S>
    decreases |fs|
  {
    if fs == [] then v else AnswerAll(handle, Answer(handle, v, fs[0]), fs[1..])
  }

  /** A whole connection: all complete frames are answered in order; a bad version is refused before closing. */
  function Serve<S>(handle: Handler<S>, v: Service<S>, input: seq<byte>): Service<S> {
    var (fs, end) := ParseAll(input);
    var v' := AnswerAll(handle, v, fs);
    if end.BadVersion? then v'.Send(Frame(GENERIC_NACK, [0])) else v'
  }

  predicate AllSendable(fs: seq<Frame>) {
    forall f :: f in fs ==> Sendable(f)
  }

  /** The length field of an encoded frame tells its payload's length iff the payload is short enough. */
  lemma HonestLength(f: Frame)
    ensures ParseHeader(Encode(f)[..HEADER_LENGTH]).length == |f.payload| <==> Sendable(f)
  {
    var header := SerializeHeader(f.kind, |f.payload|);
    assert Encode(f)[..HEADER_LENGTH] == header;
    if Sendable(f) {
      HeaderRoundTrip(f.kind, |f.payload|);
    }
    hide SerializeHeader;
    hide ParseHeader;
  }

  /** The diagnostic replies made along a connection, in order. */
  function Replies<S>(handle: Handler<S>, state: S, fs: seq<Frame>): seq<seq<byte>>
    decreases |fs|
  {
    if fs == [] then []
    else if CarriesRequest(fs[0]) then
      var (next, reply) := handle(state, fs[0].payload[4..]);
      [reply] + Replies(handle, next, fs[1..])
    else Replies(handle, state, fs[1..])
  }

  /** Two addresses and the reply make a payload that a length field can announce. */
  predicate Fits(reply: seq<byte>) {
    |reply| < 0x1_0000_0000 - 4
  }

  lemma SendSendable<S>(v: Service<S>, f: Frame)
    ensures AllSendable(v.Send(f).sent) <==> AllSendable(v.sent) && Sendable(f)
  {
    assert f in v.Send(f).sent && forall g :: g in v.sent ==> g in v.Send(f).sent;
    assert forall g :: g in v.Send(f).sent ==> g in v.sent || g == f;
  }

  lemma AnswerSendable<S>(handle: Handler<S>, v: Service<S>, f: Frame)
    ensures AllSendable(Answer(handle, v, f).sent) <==>
            AllSendable(v.sent) && (CarriesRequest(f) ==> Fits(handle(v.state, f.payload[4..]).1))
  {
    hide AllSendable;
    var p := f.payload;
    if f.kind == ROUTING_REQUEST && |p| >= 7 {
      SendSendable(v.(tester := Word(p[0], p[1])),
                   Frame(ROUTING_RESPONSE, Address(Word(p[0], p[1])) + Address(ENTITY) + [0x10, 0, 0, 0, 0]));
    } else if CarriesRequest(f) {
      var source, target := Word(p[0], p[1]), Word(p[2], p[3]);
      var (state, reply) := handle(v.state, p[4..]);
      var ack := Frame(DIAGNOSTIC_ACK, Address(target) + Address(source) + [0]);
      SendSendable(v.(state := state), ack);
      SendSendable(v.(state := state).Send(ack), Frame(DIAGNOSTIC, Address(ENTITY) + Address(source) + reply));
    } else if f.kind == ALIVE_REQUEST {
      SendSendable(v, Frame(ALIVE_RESPONSE, Address(ENTITY)));
    }
  }

  lemma AnswerState<S>(handle: Handler<S>, v: Service<S>, f: Frame)
    ensures Answer(handle, v, f).state == if CarriesRequest(f) then handle(v.state, f.payload[4..]).0 else v.state
  {
  }

  lemma {:induction false} AnswersSendable<S>(handle: Handler<S>, v: Service<S>, fs: seq<Frame>)
    ensures AllSendable(AnswerAll(handle, v, fs).sent) <==>
            AllSendable(v.sent) && forall r :: r in Replies(handle, v.state, fs) ==> Fits(r)
    decreases |fs|
  {
    hide Answer;
    hide AllSendable;
    hide Fits;
    if fs != [] {
      var v' := Answer(handle, v, fs[0]);
      AnswerSendable(handle, v, fs[0]);
      AnswerState(handle, v, fs[0]);
      AnswersSendable(handle, v', fs[1..]);
      if CarriesRequest(fs[0]) {
        var reply := handle(v.state, fs[0].payload[4..]).1;
        assert Replies(handle, v.state, fs) == [reply] + Replies(handle, v'.state, fs[1..]);
        assert reply in Replies(handle, v.state, fs);
      }
    }
  }

  /** Every acknowledgement is followed at once by the reply to the same tester, and no reply comes without one. */
  ghost predicate AckThenReply(sent: seq<Frame>) {
    && (forall i :: 0 <= i < |sent| && sent[i].kind == DIAGNOSTIC_ACK ==>
          && i + 1 < |sent| && sent[i + 1].kind == DIAGNOSTIC
          && |sent[i].payload| == 5 && |sent[i + 1].payload| >= 4
          && sent[i + 1].payload[2..4] == sent[i].payload[2..4])
    && (forall i :: 0 <= i < |sent| && sent[i].kind == DIAGNOSTIC ==> i > 0 && sent[i - 1].kind == DIAGNOSTIC_ACK)
  }

  lemma OtherInOrder(sent: seq<Frame>, f: Frame)
    requires AckThenReply(sent) && f.kind != DIAGNOSTIC && f.kind != DIAGNOSTIC_ACK
    ensures AckThenReply(sent + [f])
  {
  }

  lemma PairInOrder(sent: seq<Frame>, ack: Frame, reply: Frame)
    requires AckThenReply(sent) && ack.kind == DIAGNOSTIC_ACK && reply.kind == DIAGNOSTIC
    requires |ack.payload| == 5 && |reply.payload| >= 4 && reply.payload[2..4] == ack.payload[2..4]
    ensures AckThenReply(sent + [ack] + [reply])
  {
    var s := sent + [ack] + [reply];
    forall i | 0 <= i < |s| && s[i].kind == DIAGNOSTIC
      ensures i > 0 && s[i - 1].kind == DIAGNOSTIC_ACK
    {
      if i < |sent| {
        assert sent[i - 1].kind == DIAGNOSTIC_ACK;
      }
    }
  }

  lemma AnswerInOrder<S>(handle: Handler<S>, v: Service<S>, f: Frame)
    requires AckThenReply(v.sent)
    ensures AckThenReply(Answer(handle, v, f).sent)
  {
    hide AckThenReply;
    var p := f.payload;
    if f.kind == ROUTING_REQUEST && |p| >= 7 {
      OtherInOrder(v.sent,
                   Frame(ROUTING_RESPONSE, Address(Word(p[0], p[1])) + Address(ENTITY) + [0x10, 0, 0, 0, 0]));
    } else if CarriesRequest(f) {
      var source, target := Word(p[0], p[1]), Word(p[2], p[3]);
      var ack := Frame(DIAGNOSTIC_ACK, Address(target) + Address(source) + [0]);
      var reply := Frame(DIAGNOSTIC, Address(ENTITY) + Address(source) + handle(v.state, p[4..]).1);
      assert ack.payload[2..4] == Address(source) == reply.payload[2..4];
      PairInOrder(v.sent, ack, reply);
    } else if f.kind == ALIVE_REQUEST {
      OtherInOrder(v.sent, Frame(ALIVE_RESPONSE, Address(ENTITY)));
    }
  }

  lemma {:induction false} AnswersInOrder<S>(handle: Handler<S>, v: Service<S>, fs: seq<Frame>)
    requires AckThenReply(v.sent)
    ensures AckThenReply(AnswerAll(handle, v, fs).sent)
    decreases |fs|
  {
    hide Answer;
    if fs != [] {
      AnswerInOrder(handle, v, fs[0]);
      AnswersInOrder(handle, Answer(handle, v, fs[0]), fs[1..]);
    }
  }

  /** Whatever comes in, each diagnostic acknowledgement that goes out is followed at once by its reply. */
  lemma ServeInOrder<S>(handle: Handler<S>, v: Service<S>, input: seq<byte>, fs: seq<Frame>)
    requires v.sent == [] && fs == ParseAll(input).0
    ensures AckThenReply(Serve(handle, v, input).sent)
  {
    hide AckThenReply;
    NothingSent();
    AnswersInOrder(handle, v, fs);
    OtherInOrder(AnswerAll(handle, v, fs).sent, Frame(GENERIC_NACK, [0]));
  }

  /** All frames sent have honest length fields iff every reply made on the way leaves room for the addresses. */
  lemma ServeWellFormed<S>(handle: Handler<S>, v: Service<S>, input: seq<byte>, fs: seq<Frame>)
    requires v.sent == [] && fs == ParseAll(input).0
    ensures AllSendable(Serve(handle, v, input).sent) <==> forall r :: r in Replies(handle, v.state, fs) ==> Fits(r)
  {
    hide AllSendable;
    hide Fits;
    NothingSent();
    AnswersSendable(handle, v, fs);
    SendSendable(AnswerAll(handle, v, fs), Frame(GENERIC_NACK, [0]));
  }

  lemma NothingSent()
    ensures AllSendable([]) && AckThenReply([])
  {
  }

  lemma {:induction false} AnswerConcat<S>(handle: Handler<S>, v: Service<S>, a: seq<Frame>, b: seq<Frame>)
    ensures AnswerAll(handle, v, a + b) == AnswerAll(handle, AnswerAll(handle, v, a), b)
    decreases |a|
  {
    hide Answer;
    if a == [] {
      assert a + b == b;
    } else {
      AnswerConcat(handle, Answer(handle, v, a[0]), a[1..], b);
      assert (a + b)[1..] == a[1..] + b;
    }
  }

  /** Encoded frames are answered one after the other, and then whatever follows them. */
  lemma {:induction false} ServeEncoded<S>(
    handle: Handler<S>, v: Service<S>, fs: seq<Frame>, rest: seq<byte>, input: seq<byte>)
    requires AllReceivable(fs) && input == EncodeAll(fs) + rest
    ensures Serve(handle, v, input) == Serve(handle, AnswerAll(handle, v, fs), rest)
  {
    hide EncodeAll;
    hide ParseAll;
    hide AnswerAll;
    ParseAllEncoded(fs, rest);
    AnswerConcat(handle, v, fs, ParseAll(rest).0);
  }

  // ----- The transport -----

  lemma {:induction false} EncodeAppend(fs: seq<Frame>, f: Frame)
    ensures EncodeAll(fs + [f]) == EncodeAll(fs) + Encode(f)
  {
    hide Encode;
    if fs == [] {
      assert fs + [f] == [f] && [f][1..] == [];
    } else {
      EncodeAppend(fs[1..], f);
      assert (fs + [f])[1..] == fs[1..] + [f];
    }
  }

  lemma ServeFront<S>(handle: Handler<S>, v: Service<S>, input: seq<byte>)
    ensures match ParseFront(input)
            case Complete(f, size) => Serve(handle, v, input) == Serve(handle, Answer(handle, v, f), input[size..])
            case BadVersion => Serve(handle, v, input) == v.Send(Frame(GENERIC_NACK, [0]))
            case _ => Serve(handle, v, input) == v
  {
    hide ParseFront;
    hide Answer;
    var front := ParseFront(input);
    if front.Complete? {
      var fs := ParseAll(input[front.size..]).0;
      assert ([front.frame] + fs)[1..] == fs;
    }
  }

  /** The receiving end of a TCP connection: how many bytes each recv gives is up to the network. */
  class Socket {
    var input: seq<byte>
    var portions: seq<nat>
    var output: seq<byte>

    constructor (input: seq<byte>, portions: seq<nat>)
      ensures this.input == input && output == []
    {
      this.input, this.portions, output := input, portions, [];
    }

    /** At least one byte and at most `want`, unless the stream has ended. */
    method Recv(want: nat) returns (data: seq<byte>)
      requires want > 0
      modifies this`input, this`portions
      ensures |data| <= want && old(input) == data + input
      ensures old(input) != [] ==> data != []
    {
      var n := if portions == [] || portions[0] == 0 then 1 else portions[0];
      n := if want < n then want else n;
      n := if |input| < n then |input| else n;
      if portions != [] {
        portions := portions[1..];
      }
      data, input := input[..n], input[n..];
    }

    method Send(data: seq<byte>)
      modifies this`output
      ensures output == old(output) + data
    {
      output := output + data;
    }

    /** Fills the buffer's first `len` bytes, however the bytes arrive; false if the stream ends before. */
    method ReadExact(buffer: array<byte>, len: nat) returns (ok: bool)
      requires len <= buffer.Length
      modifies this`input, this`portions, buffer
      ensures ok == (|old(input)| >= len)
      ensures ok ==> buffer[..len] == old(input)[..len] && input == old(input)[len..]
    {
      var total := 0;
      while total < len
        invariant 0 <= total <= len
        invariant old(input) == buffer[..total] + input
        decreases len - total
      {
        var data := Recv(len - total);
        if data == [] {
          return false;
        }
        ghost var before, rest := buffer[..total], input;
        for i := 0 to |data|
          invariant total + i <= len && input == rest
          invariant buffer[..total] == before
          invariant buffer[total..total + i] == data[..i]
        {
          buffer[total + i] := data[i];
        }
        assert buffer[..total + |data|] == before + data;
        assert before + (data + rest) == before + data + rest;
        total := total + |data|;
      }
      return true;
    }
  }

  /** The server side of one connection. The handler's state is kept here for it. */
  class DoIpTransport<S> {
    const socket: Socket
    const handle: Handler<S>
    var testerAddress: uint16
    var state: S
    ghost var sent: seq<Frame>

    constructor (socket: Socket, handle: Handler<S>, state: S)
      ensures this.socket == socket && this.handle == handle
      ensures View() == Service(0, state, [])
    {
      this.socket, this.handle := socket, handle;
      testerAddress, this.state, sent := 0, state, [];
    }

    ghost function View(): Service<S>
      reads this
    {
      Service(testerAddress, state, sent)
    }

    /** What has gone out on the socket since it was opened. */
    ghost predicate Told()
      reads this, socket
    {
      socket.output == EncodeAll(sent)
    }

    method SendRaw(data: seq<byte>, ghost f: Frame)
      requires Told() && data == Encode(f)
      modifies this`sent, socket`output
      ensures Told() && View() == old(View()).Send(f)
    {
      EncodeAppend(sent, f);
      socket.Send(data);
      sent := sent + [f];
    }

    method MakeRoutingActivationResponse(tester: uint16) returns (msg: seq<byte>)
      ensures msg == Encode(Frame(ROUTING_RESPONSE, Address(tester) + Address(ENTITY) + [0x10, 0, 0, 0, 0]))
    {
      msg := SerializeHeader(ROUTING_RESPONSE, 9);
      msg := msg + [High(tester)];
      msg := msg + [Low(tester)];
      msg := msg + [High(ENTITY)];
      msg := msg + [Low(ENTITY)];
      msg := msg + [0x10];
      msg := msg + [0, 0, 0, 0];
    }

    method MakeDiagnosticAck(source: uint16, target: uint16) returns (msg: seq<byte>)
      ensures msg == Encode(Frame(DIAGNOSTIC_ACK, Address(source) + Address(target) + [0]))
    {
      msg := SerializeHeader(DIAGNOSTIC_ACK, 5);
      msg := msg + [High(source)];
      msg := msg + [Low(source)];
      msg := msg + [High(target)];
      msg := msg + [Low(target)];
      msg := msg + [0];
    }

    method MakeDiagnosticMessage(source: uint16, target: uint16, reply: seq<byte>) returns (msg: seq<byte>)
      ensures msg == Encode(Frame(DIAGNOSTIC, Address(source) + Address(target) + reply))
    {
      msg := SerializeHeader(DIAGNOSTIC, 4 + |reply|);
      msg := msg + [High(source)];
      msg := msg + [Low(source)];
      msg := msg + [High(target)];
      msg := msg + [Low(target)];
      msg := msg + reply;
      assert Address(source) + Address(target) + reply ==
             [High(source)] + [Low(source)] + [High(target)] + [Low(target)] + reply;
    }

    method MakeNack() returns (msg: seq<byte>)
      ensures msg == Encode(Frame(GENERIC_NACK, [0]))
    {
      msg := SerializeHeader(GENERIC_NACK, 1);
      msg := msg + [0];
    }

    method AnswerFrame(kind: uint16, payload: seq<byte>)
      requires Told()
      modifies this, socket`output
      ensures Told() && View() == Answer(handle, old(View()), Frame(kind, payload))
    {
      if kind == ROUTING_REQUEST && |payload| >= 7 {
        testerAddress := Word(payload[0], payload[1]);
        var response := MakeRoutingActivationResponse(testerAddress);
        SendRaw(response, Frame(ROUTING_RESPONSE, Address(testerAddress) + Address(ENTITY) + [0x10, 0, 0, 0, 0]));
      } else if kind == DIAGNOSTIC && |payload| >= 5 {
        var source, target := Word(payload[0], payload[1]), Word(payload[2], payload[3]);
        var ack := MakeDiagnosticAck(target, source);
        SendRaw(ack, Frame(DIAGNOSTIC_ACK, Address(target) + Address(source) + [0]));
        var (next, reply) := handle(state, payload[4..]);
        state := next;
        var message := MakeDiagnosticMessage(ENTITY, source, reply);
        SendRaw(message, Frame(DIAGNOSTIC, Address(ENTITY) + Address(source) + reply));
      } else if kind == ALIVE_REQUEST {
        var response := SerializeHeader(ALIVE_RESPONSE, 2) + [High(ENTITY)] + [Low(ENTITY)];
        SendRaw(response, Frame(ALIVE_RESPONSE, Address(ENTITY)));
      }
    }

    /** The replies depend on the bytes received alone, not on how the network cuts them into portions. */
    method HandleConnection()
      requires Told()
      modifies this, socket
      ensures Told() && View() == Serve(handle, old(View()), old(socket.input))
    {
      hide Serve;
      hide Answer;
      hide Encode;
      hide EncodeAll;
      hide ParseHeader;
      hide SerializeHeader;
      var header := new byte[HEADER_LENGTH];
      while true
        invariant Told()
        invariant Serve(handle, View(), socket.input) == Serve(handle, old(View()), old(socket.input))
        decreases |socket.input|
      {
        ServeFront(handle, View(), socket.input);
        ghost var before := socket.input;
        var ok := socket.ReadExact(header, HEADER_LENGTH);
        if !ok {
          return;
        }
        var h := ParseHeader(header[..HEADER_LENGTH]);
        if h.version != PROTOCOL_VERSION || h.inverse != INVERSE_VERSION {
          var nack := MakeNack();
          SendRaw(nack, Frame(GENERIC_NACK, [0]));
          return;
        }
        if h.length > MAX_PAYLOAD {
          return;
        }
        var payload := new byte[h.length];
        ok := socket.ReadExact(payload, h.length);
        if !ok {
          return;
        }
        assert payload[..] == payload[..h.length] == before[HEADER_LENGTH..HEADER_LENGTH + h.length];
        assert ParseFront(before) == Complete(Frame(h.kind, payload[..]), HEADER_LENGTH + h.length);
        assert socket.input == before[HEADER_LENGTH + h.length..];
        AnswerFrame(h.kind, payload[..]);
      }
    }
  }
}
