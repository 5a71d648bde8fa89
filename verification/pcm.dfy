/**
 * Sample arithmetic shared by the three processing stages: signed 16-bit
 * little-endian shorts, their conversion to and from amplitudes, the
 * truncating re-encoder and the two-pass peak limiter.
 * Amplitudes are real numbers; single-precision rounding is not modelled.
 */
module Pcm {

  newtype byte = x: int | 0 <= x < 256

  /** The format the player announces to `configure`. */
  datatype AudioFormat = AudioFormat(sampleRate: int, channelCount: int)

  predicate ValidFormat(f: AudioFormat) {
    f.sampleRate >= 1 && f.channelCount >= 1
  }

  /** Floats in a stage's scratch array: two seconds of interleaved samples. */
  function ScratchSize(f: AudioFormat): (n: nat)
    requires ValidFormat(f)
    ensures n >= 2
  {
    assert f.sampleRate * f.channelCount >= 1 by {
      assert f.sampleRate * f.channelCount >= f.sampleRate * 1;
    }
    f.sampleRate * f.channelCount * 2
  }

  /** Bytes in each of a stage's two byte buffers (four per scratch float). */
  function ByteCapacity(f: AudioFormat): nat
    requires ValidFormat(f)
  {
    ScratchSize(f) * 4
  }

  // ---------------------------------------------------------------------------
  // Signed 16-bit little-endian shorts
  // ---------------------------------------------------------------------------

  /** `ByteBuffer.getShort` in little-endian order: two's complement of lo + 256 hi. */
  function ShortFromBytes(lo: byte, hi: byte): (v: int)
    ensures -32768 <= v <= 32767
  {
    var u := lo as int + 256 * hi as int;
    if u >= 32768 then u - 65536 else u
  }

  /** `ByteBuffer.putShort` in little-endian order; reading the two bytes back gives `v`. */
  function ShortToBytes(v: int): (bs: seq<byte>)
    requires -32768 <= v <= 32767
    ensures |bs| == 2 && ShortFromBytes(bs[0], bs[1]) == v
  {
    var u := if v < 0 then v + 65536 else v;
    [(u % 256) as byte, (u / 256) as byte]
  }

  /** A short as an amplitude: `toFloat() / 32768f`. */
  function Dequantise(v: int): (s: real)
    requires -32768 <= v <= 32767
    ensures -1.0 <= s < 1.0
  {
    v as real / 32768.0
  }

  /** One decoded sample: the little-endian short at lo, hi as an amplitude. */
  function SampleOf(lo: byte, hi: byte): (s: real)
    ensures -1.0 <= s < 1.0
  {
    Dequantise(ShortFromBytes(lo, hi))
  }

  /** The first `n` shorts of `bytes`, as amplitudes. */
  function DecodeShorts(bytes: seq<byte>, n: nat): (s: seq<real>)
    requires 2 * n <= |bytes|
    ensures |s| == n
    ensures forall i :: 0 <= i < n ==> -1.0 <= s[i] < 1.0
  {
    seq(n, i requires 0 <= i < n => SampleOf(bytes[2 * i], bytes[2 * i + 1]))
  }

  // ---------------------------------------------------------------------------
  // Re-encoding: trunc(clamp(s, -1, 1) * 32767)
  // ---------------------------------------------------------------------------

  function Abs(x: real): real {
    if x < 0.0 then -x else x
  }

  function Max(x: real, y: real): real {
    if x < y then y else x
  }

  /** Kotlin's `coerceIn(lo, hi)`. */
  function Clamp(x: real, lo: real, hi: real): (r: real)
    requires lo <= hi
    ensures lo <= r <= hi
    ensures lo <= x <= hi ==> r == x
    ensures x < lo ==> r == lo
    ensures hi < x ==> r == hi
  {
    if x < lo then lo else if x > hi then hi else x
  }

  /** Float-to-Int conversion (`toInt`): rounds toward zero. */
  function Trunc(x: real): (r: int)
    ensures 0.0 <= x ==> 0 <= r && r as real <= x < r as real + 1.0
    ensures x < 0.0 ==> r <= 0 && r as real - 1.0 < x <= r as real
  {
    if x >= 0.0 then x.Floor else -((-x).Floor)
  }

  /** The short written for an amplitude: `(s.coerceIn(-1f, 1f) * 32767f).toInt().toShort()`. */
  function ToShort(s: real): (v: int)
    ensures -32767 <= v <= 32767
    ensures (0.0 <= s ==> 0 <= v) && (s <= 0.0 ==> v <= 0)
  {
    Trunc(Clamp(s, -1.0, 1.0) * 32767.0)
  }

  /** The bytes the output loop writes for `s`, two per sample. */
  function EncodeShorts(s: seq<real>): (bytes: seq<byte>)
    ensures |bytes| == 2 * |s|
  {
    seq(2 * |s|, i requires 0 <= i < 2 * |s| => ShortToBytes(ToShort(s[i / 2]))[i % 2])
  }

  /** The two bytes encoding sample `i` sit at 2i and 2i + 1. */
  lemma EncodedAt(s: seq<real>, i: nat)
    requires i < |s|
    ensures EncodeShorts(s)[2 * i] == ShortToBytes(ToShort(s[i]))[0]
    ensures EncodeShorts(s)[2 * i + 1] == ShortToBytes(ToShort(s[i]))[1]
  {
    assert (2 * i) / 2 == i && (2 * i) % 2 == 0;
    assert (2 * i + 1) / 2 == i && (2 * i + 1) % 2 == 1;
  }

  /** Encoding one more sample appends its two bytes. */
  lemma EncodeSnoc(s: seq<real>, x: real)
    ensures EncodeShorts(s + [x]) == EncodeShorts(s) + ShortToBytes(ToShort(x))
  {
    var e, e' := EncodeShorts(s), EncodeShorts(s + [x]);
    forall j | 0 <= j < 2 * |s|
      ensures e'[j] == e[j]
    {
      assert (s + [x])[j / 2] == s[j / 2];
    }
    EncodedAt(s + [x], |s|);
    assert (s + [x])[|s|] == x;
  }

  /** A short written by `putShort` and read back by `getShort` decodes to itself over 32768. */
  lemma SampleOfShort(v: int)
    requires -32768 <= v <= 32767
    ensures SampleOf(ShortToBytes(v)[0], ShortToBytes(v)[1]) == Dequantise(v)
  {
  }

  /** Decoding what was encoded gives each amplitude back quantised to a short over 32768. */
  lemma DecodeEncoded(s: seq<real>)
    ensures DecodeShorts(EncodeShorts(s), |s|)
         == seq(|s|, i requires 0 <= i < |s| => Dequantise(ToShort(s[i])))
  {
    var e := EncodeShorts(s);
    var d := DecodeShorts(e, |s|);
    var q := seq(|s|, i requires 0 <= i < |s| => Dequantise(ToShort(s[i])));
    forall i | 0 <= i < |s|
      ensures d[i] == q[i]
    {
      EncodedAt(s, i);
      SampleOfShort(ToShort(s[i]));
      assert d[i] == SampleOf(e[2 * i], e[2 * i + 1]);
    }
    assert d == q;
  }

  /**
   * Decoding divides by 32768 but re-encoding multiplies by 32767, so a
   * loud short does not survive an otherwise transparent stage: 32767 comes
   * back as 32766 and -32768 as -32767.
   */
  lemma RequantisationShrinksFullScale()
    ensures ToShort(32767.0 / 32768.0) == 32766
    ensures ToShort(-1.0) == -32767
  {
    var x := 32767.0 / 32768.0 * 32767.0;
    assert 32766.0 <= x < 32767.0;
  }

  // ---------------------------------------------------------------------------
  // The peak limiter
  // ---------------------------------------------------------------------------

  const LimiterThreshold: real := 0.95

  /** First pass of the limiter: the running `maxOf(maxSample, abs(s))` from 0. */
  function Peak(s: seq<real>): (p: real)
    ensures 0.0 <= p
    ensures forall i :: 0 <= i < |s| ==> Abs(s[i]) <= p
    ensures p == 0.0 || exists i :: 0 <= i < |s| && p == Abs(s[i])
    decreases |s|
  {
    if s == [] then 0.0 else Max(Peak(s[..|s| - 1]), Abs(s[|s| - 1]))
  }

  /** A sample multiplied by a linear gain. */
  function Amplify(x: real, g: real): real {
    x * g
  }

  /** Every sample multiplied by `g`. */
  function Scale(s: seq<real>, g: real): (r: seq<real>)
    ensures |r| == |s|
  {
    seq(|s|, i requires 0 <= i < |s| => Amplify(s[i], g))
  }

  /** Every sample clamped to [-1, 1]. */
  function ClampAll(s: seq<real>): (r: seq<real>)
    ensures |r| == |s|
    ensures forall i :: 0 <= i < |s| ==> -1.0 <= r[i] <= 1.0
  {
    seq(|s|, i requires 0 <= i < |s| => Clamp(s[i], -1.0, 1.0))
  }

  /**
   * Second pass of the limiter: above the threshold the buffer is scaled
   * by threshold / peak, otherwise only clamped.
   */
  function Limited(s: seq<real>): (r: seq<real>)
    ensures |r| == |s|
  {
    var p := Peak(s);
    if p > LimiterThreshold then ClampAll(Scale(s, LimiterThreshold / p)) else ClampAll(s)
  }

  lemma ScaledWithinThreshold(x: real, p: real)
    requires LimiterThreshold < p && Abs(x) <= p
    ensures Abs(Amplify(x, LimiterThreshold / p)) <= LimiterThreshold
    ensures 0.0 < x <==> 0.0 < Amplify(x, LimiterThreshold / p)
    ensures x < 0.0 <==> Amplify(x, LimiterThreshold / p) < 0.0
  {
    var k := LimiterThreshold / p;
    assert 0.0 < k && p * k == LimiterThreshold;
    var a := Amplify(x, k);
    assert a == x * k;
    if x > 0.0 {
      assert 0.0 < x * k;
      assert (p - x) * k >= 0.0;
      assert Abs(a) == x * k <= p * k;
    } else if x == 0.0 {
      assert a == 0.0;
    } else {
      assert x * k < 0.0;
      assert (p + x) * k >= 0.0;
      assert Abs(a) == -(x * k) <= p * k;
    }
  }

  /** Sample `i` of the limiter's output. */
  lemma LimitedAt(s: seq<real>, i: nat)
    requires i < |s|
    ensures Peak(s) > LimiterThreshold ==>
      Limited(s)[i] == Clamp(Amplify(s[i], LimiterThreshold / Peak(s)), -1.0, 1.0)
    ensures Peak(s) <= LimiterThreshold ==> Limited(s)[i] == Clamp(s[i], -1.0, 1.0)
  {
  }

  /** After the limiter no sample exceeds the threshold in magnitude. */
  lemma LimitedWithinThreshold(s: seq<real>)
    ensures forall i :: 0 <= i < |s| ==> Abs(Limited(s)[i]) <= LimiterThreshold
  {
    var p := Peak(s);
    forall i | 0 <= i < |s|
      ensures Abs(Limited(s)[i]) <= LimiterThreshold
    {
      LimitedAt(s, i);
      if p > LimiterThreshold {
        ScaledWithinThreshold(s[i], p);
        var y := Amplify(s[i], LimiterThreshold / p);
        assert Clamp(y, -1.0, 1.0) == y;
      } else {
        assert Abs(s[i]) <= p;
        assert Clamp(s[i], -1.0, 1.0) == s[i];
      }
    }
  }

  /** The limiter never flips or zeroes a sample's sign. */
  lemma LimitedKeepsSign(s: seq<real>)
    ensures forall i :: 0 <= i < |s| ==>
      (0.0 < s[i] <==> 0.0 < Limited(s)[i]) && (s[i] < 0.0 <==> Limited(s)[i] < 0.0)
  {
    var p := Peak(s);
    forall i | 0 <= i < |s|
      ensures (0.0 < s[i] <==> 0.0 < Limited(s)[i]) && (s[i] < 0.0 <==> Limited(s)[i] < 0.0)
    {
      LimitedAt(s, i);
      var y := if p > LimiterThreshold then Amplify(s[i], LimiterThreshold / p) else s[i];
      if p > LimiterThreshold {
        ScaledWithinThreshold(s[i], p);
      }
      assert Limited(s)[i] == Clamp(y, -1.0, 1.0);
    }
  }

  /** A buffer whose peak is at most the threshold passes the limiter unchanged. */
  lemma LimitedQuietIsIdentity(s: seq<real>)
    requires Peak(s) <= LimiterThreshold
    ensures Limited(s) == s
  {
  }

  /**
   * A sample within the limiter threshold is written as a short of
   * magnitude at most trunc(0.95 * 32767) = 31128.
   */
  lemma ThresholdShort(x: real)
    requires Abs(x) <= LimiterThreshold
    ensures -31128 <= ToShort(x) <= 31128
  {
    assert Clamp(x, -1.0, 1.0) == x;
    var y := x * 32767.0;
    if x >= 0.0 {
      assert y <= 31128.65;
    } else {
      assert -31128.65 <= y;
    }
  }

  /** With the limiter in place every short written lies within +-31128. */
  lemma LimitedShortsBounded(s: seq<real>)
    ensures forall i :: 0 <= i < |s| ==> -31128 <= ToShort(Limited(s)[i]) <= 31128
  {
    LimitedWithinThreshold(s);
    forall i | 0 <= i < |s|
      ensures -31128 <= ToShort(Limited(s)[i]) <= 31128
    {
      ThresholdShort(Limited(s)[i]);
    }
  }
}
