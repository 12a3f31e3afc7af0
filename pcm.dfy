/** The arithmetic of `float32ToPCM16` (app/page.js and
    app/public/audioProcessor.js): a Float32 sample is clamped with
    `Math.max(-1, Math.min(1, x))`, multiplied by 0x7fff and stored into an
    `Int16Array`, which converts with the ToInt16 operation of ECMA-262.

    A sample is a real number, an infinity or NaN. A Float32 value has a
    24-bit significand and 0x7fff needs 15 bits, so the product is exact in a
    JavaScript number; real arithmetic therefore computes the same value. */
module Pcm {

  /** A JavaScript number, as far as this code can tell them apart
      (the sign of zero makes no difference after ToInt16). */
  datatype JsNumber = Finite(x: real) | PosInf | NegInf | NaN

  type Sample = JsNumber

  /** The elements an `Int16Array` can hold. */
  newtype int16 = n: int | -0x8000 <= n < 0x8000

  const PCM_SCALE: int := 0x7fff

  /** `Math.min(1, v)`: NaN propagates. */
  function MinOne(v: JsNumber): JsNumber
  {
    match v
    case NaN => NaN
    case PosInf => Finite(1.0)
    case NegInf => NegInf
    case Finite(x) => if x < 1.0 then Finite(x) else Finite(1.0)
  }

  /** `Math.max(-1, v)`: NaN propagates. */
  function MaxMinusOne(v: JsNumber): JsNumber
  {
    match v
    case NaN => NaN
    case PosInf => PosInf
    case NegInf => Finite(-1.0)
    case Finite(x) => if x > -1.0 then Finite(x) else Finite(-1.0)
  }

  /** `v * 0x7fff`. */
  function Scale(v: JsNumber): JsNumber
  {
    match v
    case Finite(x) => Finite(x * PCM_SCALE as real)
    case _ => v
  }

  /** Rounding toward zero. */
  function Trunc(x: real): (n: int)
    ensures x >= 0.0 ==> n as real <= x < n as real + 1.0
    ensures x < 0.0 ==> n as real - 1.0 < x <= n as real
  {
    if x >= 0.0 then x.Floor else -((-x).Floor)
  }

  /** ToInt16 of ECMA-262: NaN and the infinities give 0, otherwise the
      value is truncated toward zero and wrapped modulo 2^16 into
      [-2^15, 2^15). */
  function ToInt16(v: JsNumber): int16
  {
    match v
    case Finite(x) =>
      var bits := Trunc(x) % 0x1_0000;
      if bits >= 0x8000 then (bits - 0x1_0000) as int16 else bits as int16
    case _ => 0
  }

  /** One element of the encoder's output, computed the way the source does. */
  function EncodeSample(s: Sample): int16
  {
    ToInt16(Scale(MaxMinusOne(MinOne(s))))
  }

  /** The encoder's whole output for one block. */
  function EncodeFrame(samples: seq<Sample>): (pcm: seq<int16>)
    ensures |pcm| == |samples|
  {
    seq(|samples|, i requires 0 <= i < |samples| => EncodeSample(samples[i]))
  }

  /** Clamping on the reals, the reference the encoder is checked against. */
  function Clamp(x: real): (c: real)
    ensures -1.0 <= c <= 1.0
    ensures -1.0 <= x <= 1.0 ==> c == x
  {
    if x < -1.0 then -1.0 else if x > 1.0 then 1.0 else x
  }

  /** Reference value of a sample: NaN is 0, an infinity is full scale,
      anything else is trunc(clamp(x, -1, 1) * 32767). */
  function Reference(s: Sample): int
  {
    match s
    case NaN => 0
    case PosInf => PCM_SCALE
    case NegInf => -PCM_SCALE
    case Finite(x) => Trunc(Clamp(x) * PCM_SCALE as real)
  }

  lemma TruncInRange(y: real)
    requires -(PCM_SCALE as real) <= y <= PCM_SCALE as real
    ensures -PCM_SCALE <= Trunc(y) <= PCM_SCALE
  {
  }

  /** The JavaScript pipeline computes the reference value, which lies in
      [-32767, 32767]: ToInt16's wrap-around never fires. */
  lemma EncodeSampleIsReference(s: Sample)
    ensures EncodeSample(s) as int == Reference(s)
    ensures -PCM_SCALE <= EncodeSample(s) as int <= PCM_SCALE
  {
    match s
    case Finite(x) =>
      var c := MaxMinusOne(MinOne(s));
      assert c == Finite(Clamp(x));
      var y := Clamp(x) * PCM_SCALE as real;
      assert -(PCM_SCALE as real) <= y <= PCM_SCALE as real;
      TruncInRange(y);
      var t := Trunc(y);
      if t < 0 {
        assert t % 0x1_0000 == t + 0x1_0000;
      } else {
        assert t % 0x1_0000 == t;
      }
    case NaN =>
    case PosInf =>
    case NegInf =>
  }

  /** NaN encodes as silence. */
  lemma NaNEncodesToZero()
    ensures EncodeSample(NaN) == 0
  {
  }

  /** Anything at or beyond full scale saturates. */
  lemma FullScaleSaturates(x: real)
    ensures x >= 1.0 ==> EncodeSample(Finite(x)) == 0x7fff
    ensures x <= -1.0 ==> EncodeSample(Finite(x)) == -0x7fff
  {
    EncodeSampleIsReference(Finite(x));
  }

  /** Truncation toward zero makes the encoder odd: a sample and its
      negation encode to opposite values (a floor would not). */
  lemma EncodeSampleOdd(x: real)
    ensures EncodeSample(Finite(-x)) == -EncodeSample(Finite(x))
  {
    EncodeSampleIsReference(Finite(x));
    EncodeSampleIsReference(Finite(-x));
    assert Clamp(-x) == -Clamp(x);
    var y := Clamp(x) * PCM_SCALE as real;
    assert Clamp(-x) * PCM_SCALE as real == -y;
  }

  /** A louder sample never encodes to a smaller value. */
  lemma EncodeSampleMonotonic(x: real, y: real)
    requires x <= y
    ensures EncodeSample(Finite(x)) <= EncodeSample(Finite(y))
  {
    EncodeSampleIsReference(Finite(x));
    EncodeSampleIsReference(Finite(y));
    var a := Clamp(x) * PCM_SCALE as real;
    var b := Clamp(y) * PCM_SCALE as real;
    assert a <= b;
    TruncMonotonic(a, b);
  }

  lemma TruncMonotonic(a: real, b: real)
    requires a <= b
    ensures Trunc(a) <= Trunc(b)
  {
  }

  /** Element by element, a whole frame is the reference encoding. */
  lemma EncodeFrameIsReference(samples: seq<Sample>, i: nat)
    requires i < |samples|
    ensures EncodeFrame(samples)[i] as int == Reference(samples[i])
    ensures -PCM_SCALE <= EncodeFrame(samples)[i] as int <= PCM_SCALE
  {
    EncodeSampleIsReference(samples[i]);
  }
}
