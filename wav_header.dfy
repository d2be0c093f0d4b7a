/** The 44-byte canonical RIFF/WAVE PCM header that DSP.h declares as
    `WavHeader` and that `setupWavFormat` fills in. The struct is a fixed-width
    record written out with `fwrite`; here it is a pure little-endian
    serialiser, with its decoder. */
module WavHeader {
  import opened Config

  /** A `char[CHAR_SIZE]` tag. */
  type Tag = s: seq<uint8> | |s| == 4 witness [0, 0, 0, 0]

  /** The fields of `WavHeader`, in declared order. */
  datatype Header = Header(
    chunkId: Tag,
    chunkSize: uint32,
    format: Tag,
    subChunk1Id: Tag,
    subChunk1Size: uint32,
    audioFormat: uint16,
    numChannels: uint16,
    sampleRate: uint32,
    byteRate: uint32,
    blockAlign: uint16,
    bitsPerSample: uint16,
    subChunk2Id: Tag,
    subChunk2Size: uint32)

  datatype Option<T> = None | Some(value: T)

  // ------- Fixed-width little-endian integers -------

  function Pow256(width: nat): (p: nat)
    ensures p > 0
  {
    if width == 0 then 1 else 256 * Pow256(width - 1)
  }

  /** The `width` bytes of n, least significant first. */
  function ToLittleEndian(n: nat, width: nat): (s: seq<uint8>)
    requires n < Pow256(width)
    ensures |s| == width
  {
    if width == 0 then [] else [n % 256] + ToLittleEndian(n / 256, width - 1)
  }

  /** The integer whose little-endian bytes are s; it fits in |s| bytes. */
  function FromLittleEndian(s: seq<uint8>): (n: nat)
    ensures n < Pow256(|s|)
  {
    if s == [] then 0 else s[0] + 256 * FromLittleEndian(s[1..])
  }

  lemma {:induction false} FromToLittleEndian(n: nat, width: nat)
    requires n < Pow256(width)
    ensures FromLittleEndian(ToLittleEndian(n, width)) == n
  {
    if width > 0 {
      var s := ToLittleEndian(n, width);
      assert s[1..] == ToLittleEndian(n / 256, width - 1);
      FromToLittleEndian(n / 256, width - 1);
    }
  }

  lemma {:induction false} ToFromLittleEndian(s: seq<uint8>)
    ensures ToLittleEndian(FromLittleEndian(s), |s|) == s
  {
    if s != [] {
      var n := FromLittleEndian(s);
      assert n % 256 == s[0] && n / 256 == FromLittleEndian(s[1..]);
      ToFromLittleEndian(s[1..]);
    }
  }

  function U16(n: uint16): (s: seq<uint8>)
    ensures |s| == 2 && FromLittleEndian(s) == n
  {
    FromToLittleEndian(n, 2);
    ToLittleEndian(n, 2)
  }

  function U32(n: uint32): (s: seq<uint8>)
    ensures |s| == 4 && FromLittleEndian(s) == n
  {
    FromToLittleEndian(n, 4);
    ToLittleEndian(n, 4)
  }

  // ------- Header serialisation -------

  /** The bytes `fwrite(header, sizeof(WavHeader), 1, file)` emits for the
      DSP.h layout: 44 bytes with the four tags at offsets 0, 8, 12 and 36. */
  function Encode(h: Header): (r: seq<uint8>)
    ensures |r| == 44
    ensures r[0..4] == h.chunkId && r[8..12] == h.format
    ensures r[12..16] == h.subChunk1Id && r[36..40] == h.subChunk2Id
  {
    h.chunkId + U32(h.chunkSize) + h.format
    + h.subChunk1Id + U32(h.subChunk1Size) + U16(h.audioFormat) + U16(h.numChannels)
    + U32(h.sampleRate) + U32(h.byteRate) + U16(h.blockAlign) + U16(h.bitsPerSample)
    + h.subChunk2Id + U32(h.subChunk2Size)
  }

  /** Reads the fields back from 44 bytes; any other length is not a header. */
  function Decode(s: seq<uint8>): (r: Option<Header>)
    ensures r.Some? <==> |s| == 44
  {
    if |s| != 44 then None
    else
      Some(Header(
        s[0..4], Read32(s, 4), s[8..12],
        s[12..16], Read32(s, 16), Read16(s, 20), Read16(s, 22),
        Read32(s, 24), Read32(s, 28), Read16(s, 32), Read16(s, 34),
        s[36..40], Read32(s, 40)))
  }

  function Read16(s: seq<uint8>, at: nat): uint16
    requires at + 2 <= |s|
  {
    Pow256Widths();
    FromLittleEndian(s[at..at + 2])
  }

  function Read32(s: seq<uint8>, at: nat): uint32
    requires at + 4 <= |s|
  {
    Pow256Widths();
    FromLittleEndian(s[at..at + 4])
  }

  lemma Pow256Widths()
    ensures Pow256(2) == 0x1_0000 && Pow256(4) == 0x1_0000_0000
  {
    assert Pow256(1) == 256;
    assert Pow256(3) == 0x100_0000;
  }

  lemma Reencode16(s: seq<uint8>, at: nat)
    requires at + 2 <= |s|
    ensures U16(Read16(s, at)) == s[at..at + 2]
  {
    ToFromLittleEndian(s[at..at + 2]);
  }

  lemma Reencode32(s: seq<uint8>, at: nat)
    requires at + 4 <= |s|
    ensures U32(Read32(s, at)) == s[at..at + 4]
  {
    ToFromLittleEndian(s[at..at + 4]);
  }

  /** Decoding what was encoded gives back every field. */
  lemma DecodeEncode(h: Header)
    ensures Decode(Encode(h)) == Some(h)
  {
    var s := Encode(h);
    assert s[4..8] == U32(h.chunkSize);
    assert s[16..20] == U32(h.subChunk1Size);
    assert s[20..22] == U16(h.audioFormat);
    assert s[22..24] == U16(h.numChannels);
    assert s[24..28] == U32(h.sampleRate);
    assert s[28..32] == U32(h.byteRate);
    assert s[32..34] == U16(h.blockAlign);
    assert s[34..36] == U16(h.bitsPerSample);
    assert s[40..44] == U32(h.subChunk2Size);
  }

  /** Every 44-byte string is the encoding of the header it decodes to, so the
      layout is a bijection between headers and 44-byte strings. */
  lemma EncodeDecode(s: seq<uint8>)
    requires |s| == 44
    ensures Decode(s).Some? && Encode(Decode(s).value) == s
  {
    Reencode32(s, 4);
    Reencode32(s, 16);
    Reencode16(s, 20);
    Reencode16(s, 22);
    Reencode32(s, 24);
    Reencode32(s, 28);
    Reencode16(s, 32);
    Reencode16(s, 34);
    Reencode32(s, 40);
    Slices(s, 4, 8);
    Slices(s, 8, 12);
    Slices(s, 12, 16);
    Slices(s, 16, 20);
    Slices(s, 20, 22);
    Slices(s, 22, 24);
    Slices(s, 24, 28);
    Slices(s, 28, 32);
    Slices(s, 32, 34);
    Slices(s, 34, 36);
    Slices(s, 36, 40);
    Slices(s, 40, 44);
  }

  /** Appending the next slice of s to its prefix extends the prefix. */
  lemma Slices(s: seq<uint8>, j: nat, k: nat)
    requires j <= k <= |s|
    ensures s[0..j] + s[j..k] == s[0..k]
  {
  }

  // ------- The header setupWavFormat builds -------

  /** ASCII bytes of a four-character tag, as `memcpy(…, "RIFF", CHAR_SIZE)`
      copies them. */
  function AsciiTag(t: string): (r: Tag)
    requires |t| == CharSize && forall i :: 0 <= i < |t| ==> t[i] as int < 0x80
    ensures forall i :: 0 <= i < 4 ==> r[i] == t[i] as int
  {
    seq(4, i requires 0 <= i < 4 => t[i] as int)
  }

  /** The PCM header DSP.c's `setupWavFormat` fills in. Its derived fields are
      consistent with the basic ones exactly as the comments of DSP.h claim. */
  function SetupWavFormat(): (h: Header)
    ensures h.audioFormat == 1
    ensures h.blockAlign == h.numChannels * (h.bitsPerSample / 8)
    ensures h.byteRate == h.sampleRate * h.blockAlign
    ensures h.subChunk2Size == NumSamples * h.blockAlign == NumSamples * NumChannels * 4
    ensures h.chunkSize == 4 + (8 + h.subChunk1Size) + (8 + h.subChunk2Size)
  {
    Header(
      AsciiTag("RIFF"), ChunkSize, AsciiTag("WAVE"),
      AsciiTag("fmt "), SubChunkSize1, AudioFormat, NumChannels,
      SampleRate, ByteRate, BlockAlign, BitsPerSample,
      AsciiTag("data"), SubChunkSize2)
  }

  /** The header bytes plus the `NUM_SAMPLES * NUM_CHANNELS` 32-bit samples are
      the whole RIFF chunk with its 8-byte preamble: 8236 bytes, with the data
      size 8192 readable at offset 40. */
  lemma WavFileSize()
    ensures |Encode(SetupWavFormat())| + NumSamples * NumChannels * 4 == ChunkSize + 8 == 8236
    ensures Read32(Encode(SetupWavFormat()), 40) == SubChunkSize2 == 8192
    ensures Read32(Encode(SetupWavFormat()), 4) == ChunkSize
  {
    DecodeEncode(SetupWavFormat());
  }

  /** The tags "RIFF", "WAVE", "fmt " and "data" sit at byte offsets 0, 8, 12
      and 36 of the written header. */
  lemma WavTags()
    ensures Encode(SetupWavFormat())[0..4] == [0x52, 0x49, 0x46, 0x46]
    ensures Encode(SetupWavFormat())[8..12] == [0x57, 0x41, 0x56, 0x45]
    ensures Encode(SetupWavFormat())[12..16] == [0x66, 0x6D, 0x74, 0x20]
    ensures Encode(SetupWavFormat())[36..40] == [0x64, 0x61, 0x74, 0x61]
  {
    var h := SetupWavFormat();
    assert h.chunkId == [0x52, 0x49, 0x46, 0x46];
    assert h.format == [0x57, 0x41, 0x56, 0x45];
    assert h.subChunk1Id == [0x66, 0x6D, 0x74, 0x20];
    assert h.subChunk2Id == [0x64, 0x61, 0x74, 0x61];
  }
}
