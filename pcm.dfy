/** The decoding step of `playPCM`: the binary string that base64 decoding
    of the speech audio gives is copied into a byte array, read as signed
    16-bit little-endian samples, and each sample is scaled into [-1, 1).
    Base64 decoding itself and the playback of the samples are outside the
    model; samples are exact reals here, where the page stores 32-bit
    floats. */
module Pcm {
  import opened Wrappers

  /** The message of the `RangeError` raised when a 16-bit view is taken of
      a buffer of odd length. */
  const OddLengthError := "byte length " + "of Int16Array " + "should be a " + "multiple of 2"

  /** `Uint8Array` element assignment keeps the character's code modulo 256. */
  function ByteOf(c: char): (b: int)
    ensures 0 <= b < 256
    ensures c as int < 256 ==> b == c as int
  {
    (c as int) % 256
  }

  /** The signed 16-bit value of the little-endian byte pair `lo`, `hi`. */
  function Int16(lo: int, hi: int): (v: int)
  {
    var u := lo + 256 * hi;
    if u >= 32768 then u - 65536 else u
  }

  /** Sample `i` of the binary string: bytes 2i and 2i + 1. */
  function SampleAt(binary: string, i: int): (sample: int)
    requires 0 <= i && 2 * i + 1 < |binary|
  {
    Int16(ByteOf(binary[2 * i]), ByteOf(binary[2 * i + 1]))
  }

  /** The two bytes, low first, that encode the 16-bit value `v`. */
  function Encode(v: int): (b: (int, int))
    requires -32768 <= v < 32768
    ensures 0 <= b.0 < 256 && 0 <= b.1 < 256
  {
    var u := if v < 0 then v + 65536 else v;
    (u % 256, u / 256)
  }

  /** Every byte pair decodes into the range of a signed 16-bit integer. */
  lemma Int16Range(lo: int, hi: int)
    requires 0 <= lo < 256 && 0 <= hi < 256
    ensures -32768 <= Int16(lo, hi) < 32768
  {
  }

  /** Decoding the encoding of a value gives the value back. */
  lemma DecodeEncode(v: int)
    requires -32768 <= v < 32768
    ensures Int16(Encode(v).0, Encode(v).1) == v
  {
  }

  /** Encoding the decoding of a byte pair gives the pair back: the decoding
      loses nothing. */
  lemma EncodeDecode(lo: int, hi: int)
    requires 0 <= lo < 256 && 0 <= hi < 256
    ensures Encode(Int16(lo, hi)) == (lo, hi)
  {
    var u := lo + 256 * hi;
    assert u % 256 == lo && u / 256 == hi;
  }

  /** The sign is carried by the top bit of the high byte. */
  lemma SignBit(lo: int, hi: int)
    requires 0 <= lo < 256 && 0 <= hi < 256
    ensures Int16(lo, hi) < 0 <==> hi >= 128
  {
  }

  /** The binary string of the samples `vs`: two characters per sample,
      the low byte first. */
  function EncodeSamples(vs: seq<int>): (b: string)
    requires forall i | 0 <= i < |vs| :: -32768 <= vs[i] < 32768
    ensures |b| == 2 * |vs|
  {
    seq(2 * |vs|, k requires 0 <= k < 2 * |vs| =>
      var e := Encode(vs[k / 2]);
      (if k % 2 == 0 then e.0 else e.1) as char)
  }

  /** Decoding the binary string of any samples gives the samples back:
      the length is even, and sample i reads as vs[i]. */
  lemma SamplesRoundTrip(vs: seq<int>)
    requires forall i | 0 <= i < |vs| :: -32768 <= vs[i] < 32768
    ensures |EncodeSamples(vs)| % 2 == 0 && |EncodeSamples(vs)| / 2 == |vs|
    ensures forall i | 0 <= i < |vs| :: SampleAt(EncodeSamples(vs), i) == vs[i]
  {
    var b := EncodeSamples(vs);
    forall i | 0 <= i < |vs|
      ensures SampleAt(b, i) == vs[i]
    {
      var e := Encode(vs[i]);
      assert (2 * i) / 2 == i && (2 * i + 1) / 2 == i;
      assert ByteOf(b[2 * i]) == e.0 && ByteOf(b[2 * i + 1]) == e.1;
      DecodeEncode(vs[i]);
    }
  }

  /** The decoding of `playPCM`: an odd number of bytes raises the range
      error; otherwise there is one sample per byte pair, each the signed
      little-endian value of its pair divided by 32768, hence in [-1, 1). */
  method DecodePcm(binary: string) returns (r: Result<seq<real>, string>)
    ensures r.Success? <==> |binary| % 2 == 0
    ensures r.Failure? ==> r.error == OddLengthError
    ensures r.Success? ==> |r.value| == |binary| / 2
    ensures r.Success? ==> forall i | 0 <= i < |r.value| ::
      r.value[i] * 32768.0 == SampleAt(binary, i) as real
    ensures r.Success? ==> forall i | 0 <= i < |r.value| :: -1.0 <= r.value[i] < 1.0
  {
    var len := |binary|;
    var bytes := new int[len];
    var i := 0;
    while i < len
      invariant 0 <= i <= len
      invariant forall k | 0 <= k < i :: bytes[k] == ByteOf(binary[k])
    {
      bytes[i] := (binary[i] as int) % 256;
      i := i + 1;
    }

    if len % 2 != 0 {
      return Failure(OddLengthError);
    }
    var count := len / 2;
    var samples := new real[count];
    i := 0;
    while i < count
      invariant 0 <= i <= count
      invariant forall k | 0 <= k < len :: bytes[k] == ByteOf(binary[k])
      invariant forall k | 0 <= k < i :: samples[k] * 32768.0 == SampleAt(binary, k) as real
      invariant forall k | 0 <= k < i :: -1.0 <= samples[k] < 1.0
    {
      var sample := Int16(bytes[2 * i], bytes[2 * i + 1]);
      Int16Range(bytes[2 * i], bytes[2 * i + 1]);
      samples[i] := sample as real / 32768.0;
      i := i + 1;
    }
    r := Success(samples[..]);
  }
}
