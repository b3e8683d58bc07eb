/** Linear PCM: signed 16-bit little-endian samples, as `main.go` decodes them
    (`pcmToFloat32Array`) and gates them (`NoiseGate`). */
module Pcm {
  import opened Wrappers

  type Byte = x: int | 0 <= x < 256
  /** A Go `int16`. */
  type Int16 = x: int | -32768 <= x < 32768

  /** `int16(binary.LittleEndian.Uint16([lo, hi]))`: the two's-complement value of the pair. */
  function DecodeSample(lo: Byte, hi: Byte): Int16 {
    var u := lo + 256 * hi;
    if u >= 32768 then u - 65536 else u
  }

  /** `binary.LittleEndian.PutUint16(.., uint16(s))`: the low byte, then the high byte. */
  function EncodeSample(s: Int16): (bs: seq<Byte>)
    ensures |bs| == 2
  {
    var u := if s < 0 then s + 65536 else s;
    [u % 256, u / 256]
  }

  lemma DecodeEncodeSample(s: Int16)
    ensures DecodeSample(EncodeSample(s)[0], EncodeSample(s)[1]) == s
  {
  }

  lemma EncodeDecodeSample(lo: Byte, hi: Byte)
    ensures EncodeSample(DecodeSample(lo, hi)) == [lo, hi]
  {
  }

  /** The samples an even-length byte string holds, pair by pair. */
  function Samples(pcm: seq<Byte>): (r: seq<Int16>)
    requires |pcm| % 2 == 0
    ensures |r| == |pcm| / 2
    decreases |pcm|
  {
    if pcm == [] then [] else [DecodeSample(pcm[0], pcm[1])] + Samples(pcm[2..])
  }

  /** The byte string that holds the given samples. */
  function Encode(samples: seq<Int16>): (r: seq<Byte>)
    ensures |r| == 2 * |samples|
    decreases |samples|
  {
    if samples == [] then [] else EncodeSample(samples[0]) + Encode(samples[1..])
  }

  /** Sample `i` of an even-length byte string is the value of bytes `2i` (low) and `2i+1` (high). */
  lemma {:induction false} SamplesAt(pcm: seq<Byte>, i: nat)
    requires |pcm| % 2 == 0 && i < |pcm| / 2
    ensures |Samples(pcm)| == |pcm| / 2
    ensures Samples(pcm)[i] == DecodeSample(pcm[2 * i], pcm[2 * i + 1])
    decreases |pcm|
  {
    if i > 0 {
      SamplesAt(pcm[2..], i - 1);
    } else if |pcm| > 2 {
      SamplesAt(pcm[2..], 0);
    }
  }

  /** An encoding has two bytes per sample, the low byte first. */
  lemma {:induction false} EncodeAt(samples: seq<Int16>, i: nat)
    requires i < |samples|
    ensures |Encode(samples)| == 2 * |samples|
    ensures Encode(samples)[2 * i] == EncodeSample(samples[i])[0]
    ensures Encode(samples)[2 * i + 1] == EncodeSample(samples[i])[1]
    decreases |samples|
  {
    if i > 0 {
      EncodeAt(samples[1..], i - 1);
    } else if |samples| > 1 {
      EncodeAt(samples[1..], 0);
    }
  }

  /** Decoding undoes encoding. */
  lemma {:induction false} SamplesOfEncode(samples: seq<Int16>)
    ensures |Encode(samples)| % 2 == 0 && Samples(Encode(samples)) == samples
    decreases |samples|
  {
    if samples != [] {
      SamplesOfEncode(samples[1..]);
      var e := Encode(samples);
      assert e[2..] == Encode(samples[1..]);
      DecodeEncodeSample(samples[0]);
    }
  }

  /** Encoding undoes decoding: no even-length byte string is lost. */
  lemma {:induction false} EncodeOfSamples(pcm: seq<Byte>)
    requires |pcm| % 2 == 0
    ensures Encode(Samples(pcm)) == pcm
    decreases |pcm|
  {
    if pcm != [] {
      EncodeOfSamples(pcm[2..]);
      EncodeDecodeSample(pcm[0], pcm[1]);
      assert pcm == [pcm[0], pcm[1]] + pcm[2..];
    }
  }

  const OddLengthText := "pcm data length must be even"

  /** `pcmToFloat32Array`, keeping each sample as its 16-bit numerator: an odd-length input is
      an error, otherwise sample `i` is decoded from bytes `2i` and `2i+1` into a fresh array. */
  method PcmToSamples(pcm: seq<Byte>) returns (r: Result<seq<Int16>>)
    ensures r.Err? <==> |pcm| % 2 != 0
    ensures r.Ok? ==> |r.value| == |pcm| / 2 && r.value == Samples(pcm)
  {
    if |pcm| % 2 != 0 {
      return Err(OddLengthText);
    }
    var n := |pcm| / 2;
    var samples := new Int16[n];
    for i := 0 to n
      invariant forall k :: 0 <= k < i ==> samples[k] == DecodeSample(pcm[2 * k], pcm[2 * k + 1])
    {
      samples[i] := DecodeSample(pcm[2 * i], pcm[2 * i + 1]);
    }
    forall k | 0 <= k < n ensures samples[..][k] == Samples(pcm)[k] {
      SamplesAt(pcm, k);
    }
    return Ok(samples[..]);
  }

  function Abs(x: int): nat {
    if x < 0 then -x else x
  }

  /** The gate for one sample: a sample quieter than the threshold becomes silence. */
  function GateSample(s: Int16, threshold: Int16): Int16 {
    if Abs(s) < threshold then 0 else s
  }

  function GateAll(samples: seq<Int16>, threshold: Int16): (r: seq<Int16>)
    ensures |r| == |samples|
  {
    seq(|samples|, k requires 0 <= k < |samples| => GateSample(samples[k], threshold))
  }

  /** What `NoiseGate` produces: the input's complete samples, gated and re-encoded, followed by
      a zero byte where the input has a trailing odd byte (the output is allocated zeroed). */
  function Gated(input: seq<Byte>, threshold: Int16): seq<Byte> {
    var even := |input| / 2 * 2;
    Encode(GateAll(Samples(input[..even]), threshold)) + (if |input| % 2 == 1 then [0] else [])
  }

  /** Bytes `2k` and `2k+1` of the gated output encode the gated sample `k` of the input. */
  lemma GatedPair(input: seq<Byte>, threshold: Int16, k: nat)
    requires k < |input| / 2
    ensures |Gated(input, threshold)| == |input|
    ensures var b := EncodeSample(GateSample(DecodeSample(input[2 * k], input[2 * k + 1]), threshold));
      Gated(input, threshold)[2 * k] == b[0] && Gated(input, threshold)[2 * k + 1] == b[1]
  {
    var even := |input| / 2 * 2;
    SamplesAt(input[..even], k);
    EncodeAt(GateAll(Samples(input[..even]), threshold), k);
  }

  /** The gated output is as long as the input and ends in a zero byte when the input's length is odd. */
  lemma GatedTail(input: seq<Byte>, threshold: Int16)
    ensures |Gated(input, threshold)| == |input|
    ensures |input| % 2 == 1 ==> Gated(input, threshold)[|input| - 1] == 0
  {
    var even := |input| / 2 * 2;
    if |input| >= 2 {
      SamplesAt(input[..even], 0);
    }
  }

  /** The gated output is as long as the input; every sample quieter than the threshold is zero and
      every other sample is unchanged; a trailing odd byte becomes zero. */
  lemma GatedSpec(input: seq<Byte>, threshold: Int16)
    ensures |Gated(input, threshold)| == |input|
    ensures forall i :: 0 <= i < |input| / 2 ==>
      var s := DecodeSample(input[2 * i], input[2 * i + 1]);
      DecodeSample(Gated(input, threshold)[2 * i], Gated(input, threshold)[2 * i + 1])
        == (if Abs(s) < threshold then 0 else s)
    ensures |input| % 2 == 1 ==> Gated(input, threshold)[|input| - 1] == 0
  {
    GatedTail(input, threshold);
    forall i | 0 <= i < |input| / 2
      ensures DecodeSample(Gated(input, threshold)[2 * i], Gated(input, threshold)[2 * i + 1])
        == GateSample(DecodeSample(input[2 * i], input[2 * i + 1]), threshold)
    {
      GatedPair(input, threshold, i);
      DecodeEncodeSample(GateSample(DecodeSample(input[2 * i], input[2 * i + 1]), threshold));
    }
  }

  /** `NoiseGate`: fills a new, zeroed output array sample by sample; the input array is only read. */
  method NoiseGate(input: array<Byte>, threshold: Int16) returns (output: array<Byte>)
    ensures fresh(output)
    ensures output.Length == input.Length
    ensures output[..] == Gated(input[..], threshold)
  {
    var sampleCount := input.Length / 2;
    output := new Byte[input.Length](_ => 0);
    for i := 0 to sampleCount
      invariant forall k :: 0 <= k < i ==>
        output[2 * k] == EncodeSample(GateSample(DecodeSample(input[2 * k], input[2 * k + 1]), threshold))[0] &&
        output[2 * k + 1] == EncodeSample(GateSample(DecodeSample(input[2 * k], input[2 * k + 1]), threshold))[1]
      invariant forall j :: 2 * i <= j < output.Length ==> output[j] == 0
    {
      var sample := DecodeSample(input[2 * i], input[2 * i + 1]);
      var bytes := EncodeSample(GateSample(sample, threshold));
      output[2 * i] := bytes[0];
      output[2 * i + 1] := bytes[1];
    }
    GatedMatches(input[..], threshold, output[..]);
  }

  /** A byte string that matches the gate's per-sample description is the gate's output. */
  lemma GatedMatches(input: seq<Byte>, threshold: Int16, out: seq<Byte>)
    requires |out| == |input|
    requires forall k :: 0 <= k < |input| / 2 ==>
      out[2 * k] == EncodeSample(GateSample(DecodeSample(input[2 * k], input[2 * k + 1]), threshold))[0] &&
      out[2 * k + 1] == EncodeSample(GateSample(DecodeSample(input[2 * k], input[2 * k + 1]), threshold))[1]
    requires forall j :: |input| / 2 * 2 <= j < |out| ==> out[j] == 0
    ensures out == Gated(input, threshold)
  {
    var g := Gated(input, threshold);
    GatedTail(input, threshold);
    forall j | 0 <= j < |out| ensures out[j] == g[j] {
      if j < |input| / 2 * 2 {
        var k := j / 2;
        GatedPair(input, threshold, k);
        assert j == 2 * k || j == 2 * k + 1;
      }
    }
  }
}
