/** Single-precision floats as the SOME/IP payloads carry them: 32-bit images in four bytes, high byte first. */
module Float32 {
  import opened Ports

  datatype F32 = Finite(value: real) | Infinity(negative: bool) | NaN {
    /** `this > bound` as the hardware compares: false for NaN. */
    predicate Above(bound: real) {
      match this
      case Finite(v) => v > bound
      case Infinity(negative) => !negative
      case NaN => false
    }

    predicate AtLeast(bound: real) {
      match this
      case Finite(v) => v >= bound
      case Infinity(negative) => !negative
      case NaN => false
    }

    predicate Below(bound: real) {
      match this
      case Finite(v) => v < bound
      case Infinity(negative) => negative
      case NaN => false
    }
  }

  /** Two to the power k, for every integer k. */
  function Scale(k: int): (r: real)
    ensures r > 0.0
    decreases if k < 0 then -k else k
  {
    if k == 0 then 1.0 else if k > 0 then 2.0 * Scale(k - 1) else Scale(k + 1) / 2.0
  }

  /** The number exponent and fraction stand for. */
  function Magnitude(exponent: nat, fraction: nat): real {
    if exponent == 0 then fraction as real * Scale(exponent - 149)
    else (0x80_0000 + fraction) as real * Scale(exponent - 150)
  }

  /** The number a 32-bit image stands for (IEEE 754-2019, section 3.4); both zeros are 0. */
  function Value(image: uint32): F32 {
    var negative := image >= 0x8000_0000;
    var exponent := image / 0x80_0000 % 0x100;
    var fraction := image % 0x80_0000;
    if exponent == 0xFF then
      if fraction == 0 then Infinity(negative) else NaN
    else
      Finite(if negative then -Magnitude(exponent, fraction) else Magnitude(exponent, fraction))
  }

  function Pow2(k: nat): (r: nat)
    ensures r >= 1
  {
    if k == 0 then 1 else 2 * Pow2(k - 1)
  }

  lemma PowAdd(a: nat, b: nat)
    ensures Pow2(a) * Pow2(b) == Pow2(a + b)
  {
    if a > 0 {
      PowAdd(a - 1, b);
      assert Pow2(a) * Pow2(b) == 2 * (Pow2(a - 1) * Pow2(b));
    }
  }

  lemma Pow23(k: nat)
    requires k >= 23
    ensures Pow2(k) >= 0x80_0000
  {
    if k == 23 {
      assert Pow2(8) == 0x100 && Pow2(7) == 0x80;
      PowAdd(8, 8);
      PowAdd(16, 7);
    } else {
      Pow23(k - 1);
    }
  }

  lemma AtMost23(m: nat, k: nat)
    requires Pow2(k) <= m < 0x80_0000
    ensures k < 23
  {
    if k >= 23 {
      Pow23(k);
    }
  }

  /** Doubles m until its leading bit is bit 23; k counts the doublings made, at most 23. */
  function Normalise(m: nat, k: nat): (r: (nat, nat))
    requires Pow2(k) <= m < 0x100_0000
    ensures 0x80_0000 <= r.0 < 0x100_0000 && (m < 0x80_0000 || r == (m, k))
    ensures k <= r.1 && (k <= 23 ==> r.1 <= 23)
    decreases 0x100_0000 - m
  {
    if m >= 0x80_0000 then (m, k) else (AtMost23(m, k); Normalise(2 * m, k + 1))
  }

  /** m divided by two k times. */
  function Shifted(m: nat, k: nat): real {
    m as real * Scale(0 - k)
  }

  lemma DoubleHalf(m: nat, k: nat)
    ensures Shifted(2 * m, k + 1) == Shifted(m, k)
  {
    var s := Scale(0 - k);
    assert Scale(0 - (k + 1)) == s / 2.0;
    assert (2 * m) as real == 2.0 * m as real;
    assert (2.0 * m as real) * (s / 2.0) == m as real * s;
  }

  /** Doubling the significand and lowering the exponent keep the number. */
  lemma {:induction false} NormaliseKeeps(m: nat, k: nat, s: nat, d: nat)
    requires Pow2(k) <= m < 0x100_0000
    requires Normalise(m, k) == (s, d)
    ensures Shifted(s, d) == Shifted(m, k)
    decreases 0x100_0000 - m
  {
    if m < 0x80_0000 {
      DoubleHalf(m, k);
      NormaliseKeeps(2 * m, k + 1, s, d);
    }
  }

  /** The image of a whole number small enough to be held exactly. */
  function Image(n: nat): (image: uint32)
    requires n < 0x100_0000
  {
    if n == 0 then
      0
    else
      var (m, k) := Normalise(n, 0);
      (150 - k) * 0x80_0000 + (m - 0x80_0000)
  }

  lemma NormalValue(m: nat, k: nat, image: uint32)
    requires k <= 23 && 0x80_0000 <= m < 0x100_0000
    requires image == (150 - k) * 0x80_0000 + (m - 0x80_0000)
    ensures Value(image) == Finite(Shifted(m, k))
  {
    assert image < 0x8000_0000;
    assert image / 0x80_0000 % 0x100 == 150 - k && image % 0x80_0000 == m - 0x80_0000;
  }

  lemma ZeroValue(image: uint32)
    requires image == 0
    ensures Value(image) == Finite(0.0)
  {
    var exponent := image / 0x80_0000 % 0x100;
    assert exponent == 0 && image % 0x80_0000 == 0;
    assert 0 as real * Scale(exponent - 149) == 0.0;
  }

  /** Every whole number below 2^24 survives the trip through its image. */
  lemma ImageRoundTrip(n: nat)
    requires n < 0x100_0000
    ensures Value(Image(n)) == Finite(n as real)
  {
    if n == 0 {
      ZeroValue(0);
    } else {
      var (m, k) := Normalise(n, 0);
      NormaliseKeeps(n, 0, m, k);
      NormalValue(m, k, Image(n));
    }
  }

  lemma Doubled(k: int)
    ensures Scale(k + 1) == 2.0 * Scale(k)
  {
  }

  lemma Fields(image: uint32, exponent: nat, fraction: nat)
    requires image == exponent * 0x80_0000 + fraction && fraction < 0x80_0000 && exponent < 0xFF
    ensures image / 0x80_0000 % 0x100 == exponent && image % 0x80_0000 == fraction
    ensures (image + 0x8000_0000) / 0x80_0000 % 0x100 == exponent && (image + 0x8000_0000) % 0x80_0000 == fraction
  {
    assert image / 0x80_0000 == exponent;
    assert (image + 0x8000_0000) / 0x80_0000 == exponent + 0x100;
  }

  lemma ValueOfFields(image: uint32, exponent: nat, fraction: nat)
    requires image == exponent * 0x80_0000 + fraction && fraction < 0x80_0000 && exponent < 0xFF
    ensures Value(image) == Finite(Magnitude(exponent, fraction))
    ensures Value(image + 0x8000_0000) == Finite(-Magnitude(exponent, fraction))
  {
    hide Scale;
    Fields(image, exponent, fraction);
  }

  lemma Steeper(a: real, b: real, scale: real)
    requires a < b && scale > 0.0
    ensures a * scale < b * scale
  {
  }

  lemma NextFraction(exponent: nat, fraction: nat)
    ensures Magnitude(exponent, fraction) < Magnitude(exponent, fraction + 1)
  {
    hide Scale;
    var scale := Scale(if exponent == 0 then exponent - 149 else exponent - 150);
    Steeper(fraction as real, (fraction + 1) as real, scale);
    Steeper((0x80_0000 + fraction) as real, (0x80_0000 + fraction + 1) as real, scale);
  }

  lemma NextExponent(exponent: nat)
    ensures Magnitude(exponent, 0x7F_FFFF) < Magnitude(exponent + 1, 0)
  {
    hide Scale;
    Doubled(exponent - 150);
    var scale := Scale(exponent - 150);
    var next := Scale(exponent + 1 - 150);
    if exponent == 0 {
      assert exponent - 149 == exponent + 1 - 150;
      Steeper(0x7F_FFFF as real, 0x80_0000 as real, next);
    } else {
      Steeper(0xFF_FFFF as real, 0x100_0000 as real, scale);
      assert 0x80_0000 as real * (2.0 * scale) == 0x100_0000 as real * scale;
    }
  }

  /** Below the infinities, the next image stands for a greater number. */
  lemma NextIsGreater(image: uint32)
    requires image + 1 < 0x7F80_0000
    ensures Value(image).Finite? && Value(image + 1).Finite? && Value(image).value < Value(image + 1).value
  {
    hide Magnitude;
    var exponent, fraction := image / 0x80_0000, image % 0x80_0000;
    ValueOfFields(image, exponent, fraction);
    if fraction == 0x7F_FFFF {
      ValueOfFields(image + 1, exponent + 1, 0);
      NextExponent(exponent);
    } else {
      ValueOfFields(image + 1, exponent, fraction + 1);
      NextFraction(exponent, fraction);
    }
    hide Value;
  }

  /** So the numbers are ordered as their images are. */
  lemma {:induction false} ImagesOrdered(a: uint32, b: uint32)
    requires a < b < 0x7F80_0000
    ensures Value(a).Finite? && Value(b).Finite? && Value(a).value < Value(b).value
    decreases b
  {
    hide Value;
    NextIsGreater(b - 1);
    if a < b - 1 {
      ImagesOrdered(a, b - 1);
    }
  }

  /** The highest bit is the sign; what is left are the infinities and NaN. */
  lemma SignAndLimits(image: uint32)
    requires image < 0x8000_0000
    ensures image < 0x7F80_0000 ==>
              Value(image).Finite? && Value(image + 0x8000_0000) == Finite(-Value(image).value)
    ensures image == 0x7F80_0000 ==> Value(image) == Infinity(false) && Value(image + 0x8000_0000) == Infinity(true)
    ensures image > 0x7F80_0000 ==> Value(image) == Value(image + 0x8000_0000) == NaN
  {
    hide Scale;
    hide Magnitude;
    if image < 0x7F80_0000 {
      ValueOfFields(image, image / 0x80_0000, image % 0x80_0000);
      hide Value;
    } else {
      assert image / 0x80_0000 == 0xFF && image % 0x80_0000 == image - 0x7F80_0000;
      assert (image + 0x8000_0000) / 0x80_0000 == 0x1FF;
      assert (image + 0x8000_0000) % 0x80_0000 == image - 0x7F80_0000;
    }
  }

  function Serialize(image: uint32): (bytes: seq<byte>)
    ensures |bytes| == 4
  {
    [image / 0x100_0000, image / 0x1_0000 % 0x100, image / 0x100 % 0x100, image % 0x100]
  }

  /** Payloads shorter than four bytes read as 0.0. */
  function Deserialize(bytes: seq<byte>): uint32 {
    if |bytes| < 4 then 0
    else bytes[0] as int * 0x100_0000 + bytes[1] as int * 0x1_0000 + bytes[2] as int * 0x100 + bytes[3]
  }

  lemma BytesOfNumber(bytes: seq<byte>)
    requires |bytes| == 4
    ensures Serialize(Deserialize(bytes)) == bytes
  {
    var d := Deserialize(bytes);
    var b0, b1, b2, b3 := bytes[0] as int, bytes[1] as int, bytes[2] as int, bytes[3] as int;
    assert d / 0x100_0000 == b0;
    assert d / 0x1_0000 == b0 * 0x100 + b1;
    assert d / 0x100 == b0 * 0x1_0000 + b1 * 0x100 + b2;
  }

  /** Writing an image and reading it back is the identity, and so is reading four bytes and writing them. */
  lemma SerializeRoundTrip(image: uint32, bytes: seq<byte>)
    requires |bytes| == 4
    ensures Deserialize(Serialize(image)) == image
    ensures Serialize(Deserialize(bytes)) == bytes
  {
    FourBytes(image);
    BytesOfNumber(bytes);
  }
}
