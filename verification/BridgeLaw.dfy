/** What the bridge makes of an event: which mapping decides, and what the signal's value says of the payload. */
module BridgeLaw {
  import opened Ports
  import opened KuksaBridge

  predicate Listens(m: BridgeMapping, e: Message) {
    m.direction == EventToSignal && m.service == e.service && m.id == e.id
  }

  /** A number in 32-bit two's complement. */
  predicate Int32Of(n: int, bits: nat) {
    -0x8000_0000 <= n < 0x8000_0000 && (n - bits) % 0x1_0000_0000 == 0
  }

  /** Byte i from the end of a payload, 0 before its start. */
  function FromEnd(p: seq<byte>, i: nat): byte {
    if i < |p| then p[|p| - 1 - i] else 0
  }

  /** The value says of the payload what its data type promises. */
  ghost predicate Means(dataType: DataType, p: seq<byte>, value: Option<SignalValue>) {
    if p == [] then value == None
    else match dataType
      case Bool => value == Some(BoolValue(p[|p| - 1] != 0))
      case Float =>
        if |p| < 4 then value == None
        else
          && value.Some? && value.value.FloatValue?
          && value.value.image == p[0] as int * 0x100_0000 + p[1] as int * 0x1_0000 + p[2] as int * 0x100 + p[3]
      case Text =>
        && value.Some? && value.value.StringValue?
        && var text := value.value.text;
        && |text| <= |p| && (forall i :: 0 <= i < |text| ==> text[i] as int == p[i] && p[i] != 0)
        && (|text| < |p| ==> p[|text|] == 0)
      case Bitmask =>
        && value.Some? && value.value.IntValue?
        && exists bits: nat :: Int32Of(value.value.number, bits) && BitsOf(bits, p)
      case _ =>
        && value.Some? && value.value.IntValue?
        && Int32Of(value.value.number, FromEnd(p, 0) as int + FromEnd(p, 1) as int * 0x100 +
                                       FromEnd(p, 2) as int * 0x1_0000 + FromEnd(p, 3) as int * 0x100_0000)
  }

  /** Bit i is set iff byte i is not 0, for the first 32 bytes. */
  ghost predicate BitsOf(bits: nat, p: seq<byte>) {
    forall i: nat :: Bit(bits, i) <==> i < |p| && i < 32 && p[i] != 0
  }

  lemma SignedIsInt32(n: nat)
    ensures Int32Of(Signed(n), n)
  {
  }

  lemma {:induction false} ZeroEnds(p: seq<byte>)
    ensures var q := BeforeZero(p);
            && |q| <= |p| && (forall i :: 0 <= i < |q| ==> q[i] == p[i] && p[i] != 0)
            && (|q| < |p| ==> p[|q|] == 0)
  {
    if p != [] && p[0] != 0 {
      ZeroEnds(p[1..]);
    }
  }

  lemma MaskMeans(p: seq<byte>)
    ensures BitsOf(Mask(if |p| <= 32 then p else p[..32]), p)
  {
    var q := if |p| <= 32 then p else p[..32];
    forall i: nat
      ensures Bit(Mask(q), i) <==> i < |p| && i < 32 && p[i] != 0
    {
      MaskBits(q, i);
    }
  }

  lemma LastFourMeans(p: seq<byte>)
    ensures BigEndian(p) == FromEnd(p, 0) as int + FromEnd(p, 1) as int * 0x100 +
                            FromEnd(p, 2) as int * 0x1_0000 + FromEnd(p, 3) as int * 0x100_0000
  {
    BigEndianLastFour(p);
    hide BigEndian;
    var four := LastFour(p);
    assert four[3] == FromEnd(p, 0) && four[2] == FromEnd(p, 1) && four[1] == FromEnd(p, 2) && four[0] == FromEnd(p, 3);
  }

  lemma MeaningMeans(dataType: DataType, p: seq<byte>)
    ensures Means(dataType, p, Meaning(dataType, p))
  {
    hide Mask;
    hide BigEndian;
    hide BeforeZero;
    hide BitsOf;
    hide Int32Of;
    hide Signed;
    match dataType {
      case Text => ZeroEnds(p);
      case Bitmask =>
        MaskMeans(p);
        SignedIsInt32(Mask(if |p| <= 32 then p else p[..32]));
      case Bool =>
      case Float =>
      case _ =>
        LastFourMeans(p);
        SignedIsInt32(BigEndian(p));
    }
  }

  /** The first mapping that listens to an event decides where its value goes and what it is. */
  lemma {:induction false} FirstDecides(mappings: seq<BridgeMapping>, e: Message, i: nat)
    requires i < |mappings| && Listens(mappings[i], e) && forall j :: 0 <= j < i ==> !Listens(mappings[j], e)
    ensures var p := BridgeEvent(mappings, e);
            && Means(mappings[i].dataType, e.payload, if p.Some? then Some(p.value.value) else None)
            && (p.Some? ==> p.value.path == mappings[i].path)
  {
    hide Means;
    hide Meaning;
    MeaningMeans(mappings[i].dataType, e.payload);
    if i > 0 {
      FirstDecides(mappings[1..], e, i - 1);
    }
  }

  /** An event that no mapping listens to is dropped. */
  lemma {:induction false} Unheard(mappings: seq<BridgeMapping>, e: Message)
    requires forall m :: m in mappings ==> !Listens(m, e)
    ensures BridgeEvent(mappings, e) == None
  {
    if mappings != [] {
      assert mappings[0] in mappings && !Listens(mappings[0], e);
      Unheard(mappings[1..], e);
    }
  }

  // ----- Signals to requests -----

  /** What the service is asked of a signal's value: a bool names its method, a number its low two bytes. */
  predicate AsksFor(m: BridgeMapping, value: SignalValue, request: Message) {
    && request.service == m.service
    && if m.dataType == Packed2Bytes && value.IntValue? then
         && request.id == m.id && |request.payload| == 2
         && (request.payload[0] as int * 0x100 + request.payload[1] - value.number) % 0x1_0000 == 0
       else if m.dataType != Packed2Bytes && value.BoolValue? then
         && request.id == (if !value.flag && m.falseMethod != 0 then m.falseMethod else m.id)
         && request.payload == [if value.flag then 1 else 0]
       else
         request.id == m.id && request.payload == []
  }

  lemma CommandAsks(m: BridgeMapping, value: SignalValue)
    ensures AsksFor(m, value, CommandRequest(m, value))
  {
    if value.IntValue? {
      TwoBytes(value.number);
    }
  }

  lemma TwoBytes(n: int)
    ensures ((n / 0x100 % 0x100) * 0x100 + n % 0x100 - n) % 0x1_0000 == 0
  {
    var q := n / 0x100;
    assert n == q * 0x100 + n % 0x100;
    assert q == q / 0x100 * 0x100 + q % 0x100;
  }
}
