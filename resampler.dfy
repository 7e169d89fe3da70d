/**
 * Linear-interpolation resampling of one audio block to 16 kHz
 * (`resampleTo16kHZ` in options.js).
 *
 * Samples are exact reals: the Float32 rounding of `resampleTo16kHZ` is not modelled.
 */
module Resampler {

  /** The fixed target sample rate, in Hz. */
  const TargetRate: real := 16000.0

  /** JavaScript's `Math.round`: the nearest integer, ties rounded up. */
  function Round(x: real): (k: int)
    ensures k as real - 0.5 <= x < k as real + 0.5
  {
    (x + 0.5).Floor
  }

  /** JavaScript's `Math.ceil`: the least integer not below `x`. */
  function Ceil(x: real): (k: int)
    ensures x <= k as real < x + 1.0
    ensures k == x.Floor || k == x.Floor + 1
  {
    if x == x.Floor as real then x.Floor else x.Floor + 1
  }

  /** Length of the resampled block: `Math.round(n * (16000 / rate))`. */
  function TargetLength(n: nat, rate: real): (t: nat)
    requires rate > 0.0
    ensures t as real - 0.5 <= n as real * (TargetRate / rate) < t as real + 0.5
  {
    ScaledNonNegative(n, rate);
    Round(n as real * (TargetRate / rate))
  }

  lemma ScaledNonNegative(n: nat, rate: real)
    requires rate > 0.0
    ensures n as real * (TargetRate / rate) >= 0.0
  {
  }

  /** A non-empty output needs a non-empty input. */
  lemma NonEmptyTarget(n: nat, rate: real)
    requires rate > 0.0
    requires TargetLength(n, rate) >= 1
    ensures n >= 1
  {
  }

  /** `springFactor`: the input distance between consecutive output samples. */
  function SpringFactor(n: nat, t: nat): (f: real)
    requires n >= 1 && t >= 2
    ensures f >= 0.0
    ensures f * (t - 1) as real == (n - 1) as real
  {
    (n - 1) as real / (t - 1) as real
  }

  /** `index = i * springFactor`: where output sample `i` falls in the input. */
  function Position(n: nat, t: nat, i: nat): real
    requires n >= 1 && t >= 2
  {
    i as real * SpringFactor(n, t)
  }

  /**
   * Every interior output index reads the input at two neighbouring,
   * in-range positions, and the interpolation weight lies in [0, 1).
   */
  lemma {:induction false} IndexBounds(n: nat, t: nat, i: nat)
    requires n >= 1 && t >= 2 && 1 <= i <= t - 2
    ensures var p := Position(n, t, i);
      0 <= p.Floor <= Ceil(p) <= n - 1 && Ceil(p) - p.Floor <= 1 &&
      0.0 <= p - p.Floor as real < 1.0
  {
    var f := SpringFactor(n, t);
    var p := Position(n, t, i);
    assert p >= 0.0;
    assert (t - 1 - i) as real * f >= 0.0;
    assert p + (t - 1 - i) as real * f == (t - 1) as real * f;
    assert p <= (n - 1) as real;
  }

  /** Output sample `i` of an interior position, as the loop body computes it. */
  function Interpolate(data: seq<real>, t: nat, i: nat): real
    requires |data| >= 1 && t >= 2 && 1 <= i <= t - 2
  {
    IndexBounds(|data|, t, i);
    var index := Position(|data|, t, i);
    var left := index.Floor;
    var right := Ceil(index);
    var fraction := index - left as real;
    data[left] + (data[right] - data[left]) * fraction
  }

  /**
   * The resampled block. Index `t - 1` is matched first: the source writes the
   * last sample after the first, so a one-sample output holds the input's last
   * sample. A zero-length output has no indices at all.
   */
  function Resampled(data: seq<real>, rate: real): (out: seq<real>)
    requires rate > 0.0
    ensures |out| == TargetLength(|data|, rate)
  {
    var n, t := |data|, TargetLength(|data|, rate);
    if t == 0 then []
    else
      NonEmptyTarget(n, rate);
      seq(t, i requires 0 <= i < t =>
        if i == t - 1 then data[n - 1]
        else if i == 0 then data[0]
        else Interpolate(data, t, i))
  }

  /** Both ends of a block of two or more outputs are the input's ends; a single output is the input's last sample. */
  lemma PinnedEndpoints(data: seq<real>, rate: real)
    requires rate > 0.0
    ensures var out := Resampled(data, rate);
      (|out| >= 1 ==> out[|out| - 1] == data[|data| - 1]) &&
      (|out| >= 2 ==> out[0] == data[0]) &&
      (|out| == 1 ==> out == [data[|data| - 1]])
  {
  }

  /** An interpolated sample lies between the two input samples it is drawn from. */
  lemma {:induction false} InterpolateBetween(data: seq<real>, t: nat, i: nat)
    requires |data| >= 1 && t >= 2 && 1 <= i <= t - 2
    ensures var p := Position(|data|, t, i);
      0 <= p.Floor && Ceil(p) < |data| &&
      var a, b, v := data[p.Floor], data[Ceil(p)], Interpolate(data, t, i);
      (a <= b ==> a <= v <= b) && (b <= a ==> b <= v <= a)
  {
    IndexBounds(|data|, t, i);
    var p := Position(|data|, t, i);
    var a, b := data[p.Floor], data[Ceil(p)];
    var f := p - p.Floor as real;
    assert 0.0 <= f < 1.0;
    assert Interpolate(data, t, i) == a + (b - a) * f;
    if a <= b {
      ScaleWithin(b - a, f);
    } else {
      ScaleWithin(a - b, f);
      assert (b - a) * f == -((a - b) * f);
    }
  }

  lemma ScaleWithin(d: real, f: real)
    requires d >= 0.0 && 0.0 <= f <= 1.0
    ensures 0.0 <= d * f <= d
  {
    assert d * f + d * (1.0 - f) == d;
    assert d * (1.0 - f) >= 0.0;
  }

  /** Every interior sample of the resampled block lies between its two neighbouring input samples. */
  lemma ResampledInteriorBetween(data: seq<real>, rate: real, i: nat)
    requires rate > 0.0
    requires 1 <= i <= |Resampled(data, rate)| - 2
    ensures var out, p := Resampled(data, rate), Position(|data|, |Resampled(data, rate)|, i);
      0 <= p.Floor && Ceil(p) < |data| &&
      var a, b := data[p.Floor], data[Ceil(p)];
      (a <= b ==> a <= out[i] <= b) && (b <= a ==> b <= out[i] <= a)
  {
    var t := |Resampled(data, rate)|;
    NonEmptyTarget(|data|, rate);
    InterpolateBetween(data, t, i);
  }

  /** At the target rate, resampling returns the block unchanged. */
  lemma {:induction false} IdentityAtTargetRate(data: seq<real>)
    ensures Resampled(data, TargetRate) == data
  {
    var n := |data|;
    assert TargetRate / TargetRate == 1.0;
    assert TargetLength(n, TargetRate) == n;
    var out := Resampled(data, TargetRate);
    forall i | 0 <= i < n
      ensures out[i] == data[i]
    {
      if 1 <= i <= n - 2 {
        assert SpringFactor(n, n) == 1.0;
        assert Position(n, n, i) == i as real;
        assert Interpolate(data, n, i) == data[i];
      }
    }
  }

  /** A 4096-sample block captured at 44.1 kHz becomes 1486 samples. */
  lemma DefaultBlockLength()
    ensures TargetLength(4096, 44100.0) == 1486
  {
  }

  /** The resampling loop: fills a fresh buffer of the target length. */
  method Resample(data: seq<real>, rate: real) returns (out: array<real>)
    requires rate > 0.0
    ensures out[..] == Resampled(data, rate)
  {
    var n := |data|;
    var t := TargetLength(n, rate);
    out := new real[t];
    if t == 0 {
      return;
    }
    NonEmptyTarget(n, rate);
    out[0] := data[0];
    out[t - 1] := data[n - 1];
    if t < 2 {
      return;
    }
    var springFactor := SpringFactor(n, t);
    var i := 1;
    while i < t - 1
      invariant 1 <= i <= t - 1
      invariant out[0] == data[0] && out[t - 1] == data[n - 1]
      invariant forall k :: 1 <= k < i ==> out[k] == Interpolate(data, t, k)
    {
      IndexBounds(n, t, i);
      var index := i as real * springFactor;
      assert index == Position(n, t, i);
      var leftIndex := index.Floor;
      var rightIndex := Ceil(index);
      var fraction := index - leftIndex as real;
      out[i] := data[leftIndex] + (data[rightIndex] - data[leftIndex]) * fraction;
      assert out[i] == Interpolate(data, t, i);
      i := i + 1;
    }
    ghost var expected := Resampled(data, rate);
    assert forall k :: 0 <= k < t ==> out[k] == expected[k];
  }
}
