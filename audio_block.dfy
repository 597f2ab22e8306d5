/**
  Decoding of one raw audio block (AudioDataBlock in auto_record.py).

  A block read from the device is a buffer of little-endian signed 16-bit samples.
  The volume of a block (an RMS over its samples, computed in floating point) is not
  computed here: every block carries its volume as a given real number.
 */
module AudioBlock {
  import opened Wrappers

  newtype byte = x: int | 0 <= x < 256

  /** Bytes per encoded sample. */
  const SAMPLE_WIDTH: nat := 2

  /** Magnitude of the most negative 16-bit sample; samples are divided by it. */
  const SHORT_SCALE: real := 32768.0

  /** The multiplier the source applies to every sample, 1/32768 (exact in binary floating point). */
  const SHORT_NORMALIZE: real := 1.0 / 32768.0

  /** One block of audio: its raw bytes and its volume. */
  datatype Block = Block(data: seq<byte>, volume: real)

  datatype DecodeError = MalformedBlock

  /** The noise test is inclusive: a block at exactly the threshold is noisy. */
  predicate IsNoisy(b: Block, threshold: real)
  {
    b.volume >= threshold
  }

  predicate IsShort(v: int)
  {
    -32768 <= v < 32768
  }

  /** The signed value of a little-endian byte pair. */
  function ShortOf(lo: byte, hi: byte): (v: int)
    ensures IsShort(v)
    ensures (v - (lo as int + 256 * hi as int)) % 65536 == 0
  {
    var u := lo as int + 256 * hi as int;
    if u >= 32768 then u - 65536 else u
  }

  /** The low byte of the two's-complement encoding of a 16-bit value. */
  function LowByte(v: int): byte
    requires IsShort(v)
  {
    ((if v < 0 then v + 65536 else v) % 256) as byte
  }

  /** The high byte of the two's-complement encoding of a 16-bit value. */
  function HighByte(v: int): byte
    requires IsShort(v)
  {
    ((if v < 0 then v + 65536 else v) / 256) as byte
  }

  lemma ShortOfEncoding(v: int)
    requires IsShort(v)
    ensures ShortOf(LowByte(v), HighByte(v)) == v
  {
  }

  lemma EncodingOfShort(lo: byte, hi: byte)
    ensures LowByte(ShortOf(lo, hi)) == lo && HighByte(ShortOf(lo, hi)) == hi
  {
  }

  /** struct.unpack("<Nh", data) for a buffer of exactly 2N bytes. */
  function UnpackShorts(data: seq<byte>): (r: seq<int>)
    requires |data| % SAMPLE_WIDTH == 0
    ensures |r| == |data| / SAMPLE_WIDTH
    ensures forall i :: 0 <= i < |r| ==> r[i] == ShortOf(data[2 * i], data[2 * i + 1])
    decreases |data|
  {
    if |data| == 0 then [] else [ShortOf(data[0], data[1])] + UnpackShorts(data[2..])
  }

  /** The inverse of UnpackShorts: the little-endian encoding of a sequence of 16-bit values. */
  function PackShorts(vs: seq<int>): (r: seq<byte>)
    requires forall i :: 0 <= i < |vs| ==> IsShort(vs[i])
    ensures |r| == SAMPLE_WIDTH * |vs|
  {
    if vs == [] then [] else [LowByte(vs[0]), HighByte(vs[0])] + PackShorts(vs[1..])
  }

  /** Decoding an encoded sequence of samples gives the samples back. */
  lemma {:induction false} UnpackPackShorts(vs: seq<int>)
    requires forall i :: 0 <= i < |vs| ==> IsShort(vs[i])
    ensures UnpackShorts(PackShorts(vs)) == vs
  {
    if vs != [] {
      var data := PackShorts(vs);
      ShortOfEncoding(vs[0]);
      assert data[2..] == PackShorts(vs[1..]);
      UnpackPackShorts(vs[1..]);
    }
  }

  /** Encoding the decoded samples of an even-length buffer gives the buffer back. */
  lemma {:induction false} PackUnpackShorts(data: seq<byte>)
    requires |data| % SAMPLE_WIDTH == 0
    ensures PackShorts(UnpackShorts(data)) == data
    decreases |data|
  {
    if |data| != 0 {
      var vs := UnpackShorts(data);
      EncodingOfShort(data[0], data[1]);
      assert vs[1..] == UnpackShorts(data[2..]);
      PackUnpackShorts(data[2..]);
      assert data == [data[0], data[1]] + data[2..];
    }
  }

  /**
    unpack_data: the normalised samples of a buffer. An odd-length buffer makes
    struct.unpack raise, which is the MalformedBlock failure here.
   */
  function UnpackData(data: seq<byte>): (r: Result<seq<real>, DecodeError>)
    ensures r.Success? <==> |data| % SAMPLE_WIDTH == 0
    ensures r.Success? ==> |r.value| == |data| / SAMPLE_WIDTH
    ensures r.Success? ==> forall i :: 0 <= i < |r.value| ==>
              && -1.0 <= r.value[i] < 1.0
              && r.value[i] * SHORT_SCALE == ShortOf(data[2 * i], data[2 * i + 1]) as real
  {
    if |data| % SAMPLE_WIDTH != 0 then Failure(MalformedBlock)
    else
      var shorts := UnpackShorts(data);
      Success(seq(|shorts|, i requires 0 <= i < |shorts| => shorts[i] as real * SHORT_NORMALIZE))
  }

  /** The normalised samples determine the buffer: decoding loses no information. */
  lemma UnpackDataInjective(a: seq<byte>, b: seq<byte>)
    requires UnpackData(a).Success? && UnpackData(a) == UnpackData(b)
    ensures a == b
  {
    var sa, sb := UnpackShorts(a), UnpackShorts(b);
    assert |sa| == |sb|;
    forall i | 0 <= i < |sa| ensures sa[i] == sb[i] {
      assert sa[i] as real * SHORT_NORMALIZE == UnpackData(a).value[i];
      assert sb[i] as real * SHORT_NORMALIZE == UnpackData(b).value[i];
    }
    assert sa == sb;
    PackUnpackShorts(a);
    PackUnpackShorts(b);
  }
}
