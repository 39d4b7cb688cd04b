/** The ECU behind a DoIP connection: a byte stream is a run of diagnostic requests. */
module EcuOverDoIp {
  import opened Ports
  import opened Diagnostics
  import opened BodyEcu
  import opened EcuInvariants
  import opened UdsHistory
  import opened DoIp
  import opened DoorSafety

  function EcuHandler(w: Wiring): Handler<Ecu> {
    (s, request) => Uds(w, s, request)
  }

  /** The requests carried by frames, in order. */
  function Requests(fs: seq<Frame>): seq<Input> {
    if fs == [] then []
    else
      var f := fs[0];
      (if CarriesRequest(f) then [DiagnosticRequest(f.payload[4..])] else []) + Requests(fs[1..])
  }

  lemma {:induction false} AfterConcat(w: Wiring, s: Ecu, a: seq<Input>, b: seq<Input>)
    ensures After(w, s, a + b) == After(w, After(w, s, a), b)
  {
    hide Step;
    if b == [] {
      assert a + b == a;
    } else {
      AfterConcat(w, s, a, b[..|b| - 1]);
      assert (a + b)[..|a + b| - 1] == a + b[..|b| - 1];
    }
  }

  lemma AfterOne(w: Wiring, s: Ecu, i: Input)
    ensures After(w, s, [i]) == Step(w, s, i)
  {
    hide Step;
    assert [i][..0] == [];
    assert After(w, s, []) == s;
  }

  lemma {:induction false} AnswersRun(w: Wiring, v: Service<Ecu>, fs: seq<Frame>)
    ensures AnswerAll(EcuHandler(w), v, fs).state == After(w, v.state, Requests(fs))
    decreases |fs|
  {
    hide Uds;
    if fs != [] {
      var v' := Answer(EcuHandler(w), v, fs[0]);
      var one := if CarriesRequest(fs[0]) then [DiagnosticRequest(fs[0].payload[4..])] else [];
      AnswersRun(w, v', fs[1..]);
      AfterConcat(w, v.state, one, Requests(fs[1..]));
      assert v'.state == After(w, v.state, one) by {
        if one != [] {
          AfterOne(w, v.state, one[0]);
        }
      }
      hide After;
      hide Answer;
    }
  }

  /** Whatever bytes a tester sends, the ECU has made a run of the requests framed in them. */
  lemma ConnectionIsRun(w: Wiring, v: Service<Ecu>, input: seq<byte>)
    ensures Serve(EcuHandler(w), v, input).state == After(w, v.state, Requests(ParseAll(input).0))
  {
    AnswersRun(w, v, ParseAll(input).0);
    hide AnswerAll;
    hide After;
    hide Requests;
  }

  /** So a connection opened in any reachable state ends in a reachable, consistent one. */
  lemma ConnectionConsistent(w: Wiring, run: seq<Input>, v: Service<Ecu>, input: seq<byte>)
    requires v.state == After(w, POWERED, run)
    ensures var s := Serve(EcuHandler(w), v, input).state;
            Consistent(w, s) && s.session == LastSession(run + Requests(ParseAll(input).0))
  {
    var all := run + Requests(ParseAll(input).0);
    ConnectionIsRun(w, v, input);
    AfterConcat(w, POWERED, run, Requests(ParseAll(input).0));
    AlwaysConsistent(w, all);
    SessionIsLastAccepted(w, all);
    hide After;
    hide Consistent;
    hide Serve;
  }

  predicate AsksExtended(i: Input) {
    i.DiagnosticRequest? && |i.request| >= 2 && i.request[0] == SESSION_CONTROL && i.request[1] == 0x03
  }

  lemma {:induction false} DefaultRun(w: Wiring, s: Ecu, requests: seq<Input>)
    requires s.session == Default && forall i :: i in requests ==> i.DiagnosticRequest? && !AsksExtended(i)
    ensures After(w, s, requests) == s
  {
    hide Step;
    if requests != [] {
      var last := requests[|requests| - 1];
      DefaultRun(w, s, requests[..|requests| - 1]);
      assert last in requests;
      DiagnosticsHarmless(w, s, last.request);
      DiagnosticSession(w, s, last.request);
    }
  }

  lemma {:induction false} OnlyRequests(fs: seq<Frame>)
    ensures forall i :: i in Requests(fs) ==> i.DiagnosticRequest?
  {
    if fs != [] {
      OnlyRequests(fs[1..]);
    }
  }

  /** A stream that never asks for the extended session changes nothing in the ECU. */
  lemma DefaultConnectionHarmless(w: Wiring, v: Service<Ecu>, input: seq<byte>)
    requires v.state.session == Default
    requires forall i :: i in Requests(ParseAll(input).0) ==> !AsksExtended(i)
    ensures Serve(EcuHandler(w), v, input).state == v.state
  {
    ConnectionIsRun(w, v, input);
    OnlyRequests(ParseAll(input).0);
    DefaultRun(w, v.state, Requests(ParseAll(input).0));
    hide Serve;
    hide ParseAll;
    hide After;
  }

  // ----- Lengths of replies -----

  const ROOM := 0x1_0000_0000 - 4

  /** VIN, serial number and trouble codes, each with its response header, leave room for the addresses. */
  predicate Roomy(w: Wiring, dtcs: seq<Dtc>) {
    && (VehicleInfo in w.providers ==> 3 + |w.vin| < ROOM && 3 + |w.serial| < ROOM)
    && 2 + 4 * |dtcs| < ROOM
  }

  lemma {:induction false} ReportLength(dtcs: seq<Dtc>)
    ensures |Report(dtcs)| == 4 * |dtcs|
  {
    if dtcs != [] {
      ReportLength(dtcs[..|dtcs| - 1]);
    }
  }

  lemma UdsFits(w: Wiring, s: Ecu, request: seq<byte>)
    requires Roomy(w, s.dtcs)
    ensures Fits(Uds(w, s, request).1) && Uds(w, s, request).0.dtcs == s.dtcs
  {
    hide Control;
    hide ReadData;
    hide Report;
    ReportLength(s.dtcs);
    if |request| >= 3 {
      ReadRoute(w, 0, s, Word(request[1], request[2]));
      assert w.providers[0..] == w.providers;
    }
    if |request| >= 4 {
      ControlDoor(w, 0, s, Word(request[1], request[2]), request[3..]);
    }
  }

  lemma {:induction false} RepliesFit(w: Wiring, s: Ecu, fs: seq<Frame>)
    requires Roomy(w, s.dtcs)
    ensures forall r :: r in Replies(EcuHandler(w), s, fs) ==> Fits(r)
    decreases |fs|
  {
    hide Uds;
    hide Fits;
    if fs != [] {
      if CarriesRequest(fs[0]) {
        UdsFits(w, s, fs[0].payload[4..]);
        RepliesFit(w, Uds(w, s, fs[0].payload[4..]).0, fs[1..]);
      } else {
        RepliesFit(w, s, fs[1..]);
      }
    }
  }

  function RequestFrame(request: seq<byte>): Frame {
    Frame(DIAGNOSTIC, [0, 0, 0, 0] + request)
  }

  lemma OneReply(w: Wiring, v: Service<Ecu>, request: seq<byte>)
    requires 0 < |request| <= 0x100 && v.sent == [] && !Fits(Uds(w, v.state, request).1)
    ensures !AllSendable(Serve(EcuHandler(w), v, EncodeAll([RequestFrame(request)])).sent)
  {
    hide Uds;
    hide Fits;
    hide AllSendable;
    hide Serve;
    var f := RequestFrame(request);
    var input := EncodeAll([f]);
    assert Receivable(f);
    ParseAllEncoded([f], []);
    hide EncodeAll;
    assert input + [] == input && ParseAll([]) == ([], Short);
    assert [f] + [] == [f];
    assert f.payload[4..] == request;
    var replies := Replies(EcuHandler(w), v.state, [f]);
    assert replies == [Uds(w, v.state, request).1] + Replies(EcuHandler(w), Uds(w, v.state, request).0, []);
    assert Uds(w, v.state, request).1 in replies;
    ServeWellFormed(EcuHandler(w), v, input, [f]);
  }

  lemma LongReply(w: Wiring, s: Ecu)
    ensures 2 + 4 * |s.dtcs| >= ROOM ==> !Fits(Uds(w, s, [READ_DTC, 0x02]).1)
    ensures VehicleInfo in w.providers && 3 + |w.vin| >= ROOM ==> !Fits(Uds(w, s, [READ_DATA, 0xF1, 0x90]).1)
    ensures VehicleInfo in w.providers && 3 + |w.serial| >= ROOM ==> !Fits(Uds(w, s, [READ_DATA, 0xF1, 0x8C]).1)
  {
    hide Report;
    hide ReadData;
    ReportLength(s.dtcs);
    ReadRoute(w, 0, s, VIN_DID);
    ReadRoute(w, 0, s, SERIAL_DID);
    assert w.providers[0..] == w.providers;
    assert [READ_DATA, 0xF1 as byte, 0x90 as byte][0] == READ_DATA;
    assert [READ_DTC, 0x02 as byte][0] == READ_DTC;
  }

  /** Whatever a tester sends, all it gets has honest length fields: iff VIN, serial number and trouble codes fit. */
  lemma EcuWellFormed(w: Wiring, v: Service<Ecu>)
    requires v.sent == []
    ensures (forall input: seq<byte> :: AllSendable(Serve(EcuHandler(w), v, input).sent)) <==> Roomy(w, v.state.dtcs)
  {
    hide Serve;
    hide AllSendable;
    hide Uds;
    if Roomy(w, v.state.dtcs) {
      forall input: seq<byte>
        ensures AllSendable(Serve(EcuHandler(w), v, input).sent)
      {
        RepliesFit(w, v.state, ParseAll(input).0);
        ServeWellFormed(EcuHandler(w), v, input, ParseAll(input).0);
      }
    } else {
      LongReply(w, v.state);
      var request :=
        if 2 + 4 * |v.state.dtcs| >= ROOM then [READ_DTC, 0x02]
        else if 3 + |w.vin| >= ROOM then [READ_DATA, 0xF1, 0x90]
        else [READ_DATA, 0xF1, 0x8C];
      OneReply(w, v, request);
    }
  }
}
