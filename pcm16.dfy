/**
 * Float-to-PCM16 conversion of a resampled block (the `Int16Array` loop in
 * `onaudioprocess`, options.js) and the little-endian byte layout of the
 * frame handed to the socket.
 */
module Pcm16 {

  const Int16Min: int := -0x8000
  const Int16Max: int := 0x7FFF

  predicate InInt16Range(v: int) {
    Int16Min <= v <= Int16Max
  }

  /** `Math.max(-1, Math.min(1, x))`. */
  function Clamp(x: real): (s: real)
    ensures -1.0 <= s <= 1.0
    ensures -1.0 <= x <= 1.0 ==> s == x
    ensures x > 1.0 ==> s == 1.0
    ensures x < -1.0 ==> s == -1.0
    ensures (s < 0.0) == (x < 0.0)
  {
    if x > 1.0 then 1.0 else if x < -1.0 then -1.0 else x
  }

  /** Storing a number into an `Int16Array` drops its fraction toward zero. */
  function TruncateTowardZero(v: real): (k: int)
    ensures v >= 0.0 ==> 0 <= k && k as real <= v < k as real + 1.0
    ensures v < 0.0 ==> k <= 0 && k as real - 1.0 < v <= k as real
  {
    if v < 0.0 then -((-v).Floor) else v.Floor
  }

  /** One sample: negatives scale by 0x8000, the rest by 0x7FFF. */
  function EncodeSample(x: real): (v: int)
    ensures InInt16Range(v)
    ensures x < 0.0 ==> v <= 0
    ensures x >= 0.0 ==> v >= 0
  {
    var s := Clamp(x);
    TruncateTowardZero(if s < 0.0 then s * 32768.0 else s * 32767.0)
  }

  /** Clamping first changes nothing: the encoder saturates at its own bounds. */
  lemma ClampIdempotent(x: real)
    ensures EncodeSample(Clamp(x)) == EncodeSample(x)
  {
  }

  /** Full-scale and beyond: +1 and above give 32767, -1 and below give -32768. */
  lemma Saturates(x: real)
    ensures x >= 1.0 ==> EncodeSample(x) == Int16Max
    ensures x <= -1.0 ==> EncodeSample(x) == Int16Min
  {
  }

  /** A larger sample never encodes to a smaller value. */
  lemma EncodeMonotone(x: real, y: real)
    requires x <= y
    ensures EncodeSample(x) <= EncodeSample(y)
  {
  }

  /** The encoded block: one value per sample, in order. */
  function EncodeAll(samples: seq<real>): (r: seq<int>)
    ensures |r| == |samples|
    ensures forall i :: 0 <= i < |r| ==> InInt16Range(r[i])
    ensures forall i :: 0 <= i < |r| ==> (samples[i] < 0.0 ==> r[i] <= 0) && (samples[i] >= 0.0 ==> r[i] >= 0)
  {
    seq(|samples|, i requires 0 <= i < |samples| => EncodeSample(samples[i]))
  }

  /** The conversion loop: fills a fresh `Int16Array` of the same length. */
  method EncodeBlock(samples: array<real>) returns (out: array<int>)
    ensures out[..] == EncodeAll(samples[..])
  {
    out := new int[samples.Length];
    var i := 0;
    while i < samples.Length
      invariant 0 <= i <= samples.Length
      invariant forall k :: 0 <= k < i ==> out[k] == EncodeSample(samples[k])
    {
      var s := Clamp(samples[i]);
      out[i] := TruncateTowardZero(if s < 0.0 then s * 32768.0 else s * 32767.0);
      i := i + 1;
    }
  }

  newtype byte = b: int | 0 <= b < 0x100

  /** `audioDataInt16.buffer`: each value as two bytes, low byte first. */
  function FrameBytes(values: seq<int>): (bytes: seq<byte>)
    requires forall i :: 0 <= i < |values| ==> InInt16Range(values[i])
    ensures |bytes| == 2 * |values|
  {
    if values == [] then []
    else
      var u := values[0] % 0x10000;
      [(u % 0x100) as byte, (u / 0x100) as byte] + FrameBytes(values[1..])
  }

  /** Reads a frame back as signed 16-bit values (the receiver's view). */
  function DecodeFrame(bytes: seq<byte>): (values: seq<int>)
    requires |bytes| % 2 == 0
    ensures |values| == |bytes| / 2
    ensures forall i :: 0 <= i < |values| ==> InInt16Range(values[i])
  {
    if bytes == [] then []
    else
      var u := bytes[0] as int + 0x100 * bytes[1] as int;
      [if u >= 0x8000 then u - 0x10000 else u] + DecodeFrame(bytes[2..])
  }

  /** The byte layout loses nothing: decoding a frame returns the values sent. */
  lemma {:induction false} FrameRoundTrip(values: seq<int>)
    requires forall i :: 0 <= i < |values| ==> InInt16Range(values[i])
    ensures DecodeFrame(FrameBytes(values)) == values
  {
    if values != [] {
      var bytes := FrameBytes(values);
      assert bytes[2..] == FrameBytes(values[1..]);
      FrameRoundTrip(values[1..]);
    }
  }
}
