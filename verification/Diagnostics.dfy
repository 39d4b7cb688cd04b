/** Trouble codes and the vehicle information: what the UDS handler reports besides the controllers. */
module Diagnostics {
  import opened Ports

  datatype Session = Default | Extended

  datatype Dtc = Dtc(code: uint32, status: byte)

  /** Overwrites the status of a known code in place, appends an unknown one. */
  function Stored(dtcs: seq<Dtc>, code: uint32, status: byte): seq<Dtc> {
    if dtcs == [] then [Dtc(code, status)]
    else if dtcs[0].code == code then [Dtc(code, status)] + dtcs[1..]
    else [dtcs[0]] + Stored(dtcs[1..], code, status)
  }

  lemma {:induction false} StoredInPlace(dtcs: seq<Dtc>, code: uint32, status: byte, i: nat)
    requires i < |dtcs| && dtcs[i].code == code && forall j :: 0 <= j < i ==> dtcs[j].code != code
    ensures Stored(dtcs, code, status) == dtcs[i := Dtc(code, status)]
  {
    if i > 0 {
      StoredInPlace(dtcs[1..], code, status, i - 1);
    }
  }

  lemma {:induction false} StoredNew(dtcs: seq<Dtc>, code: uint32, status: byte)
    requires forall j :: 0 <= j < |dtcs| ==> dtcs[j].code != code
    ensures Stored(dtcs, code, status) == dtcs + [Dtc(code, status)]
  {
    if dtcs != [] {
      StoredNew(dtcs[1..], code, status);
    }
  }

  class DtcStore {
    var dtcs: seq<Dtc>

    constructor ()
      ensures dtcs == []
    {
      dtcs := [];
    }

    method Store(code: uint32, status: byte)
      modifies this
      ensures dtcs == Stored(old(dtcs), code, status)
    {
      for i := 0 to |dtcs|
        invariant dtcs == old(dtcs)
        invariant forall j :: 0 <= j < i ==> dtcs[j].code != code
      {
        if dtcs[i].code == code {
          StoredInPlace(dtcs, code, status, i);
          dtcs := dtcs[i := Dtc(code, status)];
          return;
        }
      }
      StoredNew(dtcs, code, status);
      dtcs := dtcs + [Dtc(code, status)];
    }

    method Clear()
      modifies this
      ensures dtcs == []
    {
      dtcs := [];
    }
  }

  // ----- What a history of stores and clears leaves behind -----

  datatype Operation = Store(code: uint32, status: byte) | Clear

  function Remaining(history: seq<Operation>): seq<Dtc> {
    if history == [] then []
    else
      var before := Remaining(history[..|history| - 1]);
      match history[|history| - 1]
      case Store(code, status) => Stored(before, code, status)
      case Clear => []
  }

  function Codes(dtcs: seq<Dtc>): seq<uint32> {
    seq(|dtcs|, i requires 0 <= i < |dtcs| => dtcs[i].code)
  }

  /** The codes stored since the last clear, each where it first occurred. */
  function FirstOccurrences(history: seq<Operation>): seq<uint32> {
    if history == [] then []
    else
      var before := FirstOccurrences(history[..|history| - 1]);
      match history[|history| - 1]
      case Store(code, _) => if code in before then before else before + [code]
      case Clear => []
  }

  /** The status last written for a code since the last clear. */
  function LastStatus(history: seq<Operation>, code: uint32): Option<byte> {
    if history == [] then None
    else match history[|history| - 1]
      case Store(c, status) =>
        if c == code then Some(status) else LastStatus(history[..|history| - 1], code)
      case Clear => None
  }

  lemma CodesCons(d: Dtc, rest: seq<Dtc>)
    ensures Codes([d] + rest) == [d.code] + Codes(rest)
  {
  }

  lemma {:induction false} StoredCodes(dtcs: seq<Dtc>, code: uint32, status: byte)
    ensures Codes(Stored(dtcs, code, status)) ==
            if code in Codes(dtcs) then Codes(dtcs) else Codes(dtcs) + [code]
  {
    if dtcs == [] {
      assert Stored(dtcs, code, status) == [Dtc(code, status)] + [];
      CodesCons(Dtc(code, status), []);
    } else {
      var rest := Stored(dtcs[1..], code, status);
      assert dtcs == [dtcs[0]] + dtcs[1..];
      CodesCons(dtcs[0], dtcs[1..]);
      if dtcs[0].code == code {
        assert Stored(dtcs, code, status) == [Dtc(code, status)] + dtcs[1..];
        CodesCons(Dtc(code, status), dtcs[1..]);
      } else {
        StoredCodes(dtcs[1..], code, status);
        assert Stored(dtcs, code, status) == [dtcs[0]] + rest;
        CodesCons(dtcs[0], rest);
      }
    }
    hide Codes;
  }

  lemma {:induction false} StoredOthers(dtcs: seq<Dtc>, code: uint32, status: byte)
    ensures var d := Stored(dtcs, code, status);
            |d| >= |dtcs| && forall i :: 0 <= i < |dtcs| && dtcs[i].code != code ==> d[i] == dtcs[i]
  {
    if dtcs != [] && dtcs[0].code != code {
      StoredOthers(dtcs[1..], code, status);
    }
  }

  ghost predicate Distinct<T>(s: seq<T>) {
    forall i, j :: 0 <= i < j < |s| ==> s[i] != s[j]
  }

  lemma HeadDiffers(dtcs: seq<Dtc>)
    requires Distinct(Codes(dtcs))
    ensures forall j :: 0 < j < |dtcs| ==> dtcs[j].code != dtcs[0].code
  {
    forall j | 0 < j < |dtcs|
      ensures dtcs[j].code != dtcs[0].code
    {
      assert Codes(dtcs)[0] != Codes(dtcs)[j];
    }
  }

  /** A code just stored carries the status just given. */
  lemma {:induction false} StoredStatus(dtcs: seq<Dtc>, code: uint32, status: byte, i: nat)
    requires Distinct(Codes(dtcs))
    requires i < |Stored(dtcs, code, status)| && Stored(dtcs, code, status)[i].code == code
    ensures Stored(dtcs, code, status)[i].status == status
  {
    if dtcs != [] {
      var d := Stored(dtcs, code, status);
      if dtcs[0].code == code {
        HeadDiffers(dtcs);
      } else {
        assert Codes(dtcs)[1..] == Codes(dtcs[1..]);
        StoredStatus(dtcs[1..], code, status, i - 1);
      }
    }
  }

  /** After any history codes are distinct, in order of first storing since the last clear, with the last status. */
  lemma {:induction false} StoreHistory(history: seq<Operation>)
    ensures Codes(Remaining(history)) == FirstOccurrences(history)
    ensures Distinct(FirstOccurrences(history))
    ensures forall i :: 0 <= i < |Remaining(history)| ==>
              LastStatus(history, Remaining(history)[i].code) == Some(Remaining(history)[i].status)
  {
    if history != [] {
      var before := history[..|history| - 1];
      StoreHistory(before);
      match history[|history| - 1]
      case Clear =>
      case Store(code, status) =>
        StoredCodes(Remaining(before), code, status);
        StoredOthers(Remaining(before), code, status);
        forall i | 0 <= i < |Remaining(history)|
          ensures LastStatus(history, Remaining(history)[i].code) == Some(Remaining(history)[i].status)
        {
          if Remaining(history)[i].code == code {
            StoredStatus(Remaining(before), code, status, i);
          } else {
            assert Codes(Remaining(history))[i] == Remaining(history)[i].code;
          }
        }
    }
  }

  // ----- The report of service 0x19 (ISO 14229-1:2013, section 11.3) -----

  /** Three bytes of code, one of status; higher bits of a code are cut off. */
  function Record(dtc: Dtc): (bytes: seq<byte>)
    ensures |bytes| == 4
  {
    [dtc.code / 0x1_0000 % 0x100, dtc.code / 0x100 % 0x100, dtc.code % 0x100, dtc.status]
  }

  function Report(dtcs: seq<Dtc>): seq<byte> {
    if dtcs == [] then [] else Report(dtcs[..|dtcs| - 1]) + Record(dtcs[|dtcs| - 1])
  }

  /** How a tester reads the report. */
  function ReadRecords(bytes: seq<byte>): seq<Dtc> {
    if |bytes| < 4 then []
    else
      ReadRecords(bytes[..|bytes| - 4]) +
      [Dtc(bytes[|bytes| - 4] as int * 0x1_0000 + bytes[|bytes| - 3] as int * 0x100 + bytes[|bytes| - 2],
           bytes[|bytes| - 1])]
  }

  function Truncated(dtcs: seq<Dtc>): seq<Dtc> {
    seq(|dtcs|, i requires 0 <= i < |dtcs| => Dtc(dtcs[i].code % 0x100_0000, dtcs[i].status))
  }

  lemma {:induction false} ReportReadBack(dtcs: seq<Dtc>)
    ensures ReadRecords(Report(dtcs)) == Truncated(dtcs)
  {
    if dtcs != [] {
      var start, last := dtcs[..|dtcs| - 1], dtcs[|dtcs| - 1];
      ReportReadBack(start);
      var bytes := Report(dtcs);
      assert bytes[..|bytes| - 4] == Report(start);
      ThreeBytes(last.code);
      assert Truncated(dtcs) == Truncated(start) + [Dtc(last.code % 0x100_0000, last.status)];
    }
  }

  lemma ThreeBytes(code: uint32)
    ensures (code / 0x1_0000 % 0x100) * 0x1_0000 + (code / 0x100 % 0x100) * 0x100 + code % 0x100 == code % 0x100_0000
  {
    FourBytes(code);
    var high := code / 0x100_0000;
    assert code / 0x1_0000 == high * 0x100 + code / 0x1_0000 % 0x100 by {
      FirstByte(code);
    }
    assert code % 0x100_0000 == code - high * 0x100_0000;
  }

  /** The tester reads back exactly the store iff every code fits 24 bits. */
  lemma ReportFaithful(dtcs: seq<Dtc>)
    ensures ReadRecords(Report(dtcs)) == dtcs <==> forall d :: d in dtcs ==> d.code < 0x100_0000
  {
    hide ReadRecords;
    hide Report;
    ReportReadBack(dtcs);
    assert forall i :: 0 <= i < |dtcs| ==> (Truncated(dtcs)[i] == dtcs[i] <==> dtcs[i].code < 0x100_0000);
  }
}
