/**
 * The byte stream `bufferToWave` produces, as a pure function of the audio
 * buffer: a 44-byte RIFF/WAVE header followed by the samples in
 * CHANNEL-MAJOR order (all of channel 0, then all of channel 1, ...), each
 * a little-endian int16.  Beside it, a header parser and a sample reader
 * that read the stream back, and the lemmas that relate the two.
 */
module WaveFormat {
  import opened LittleEndian
  import opened Samples

  /** The part of a Web Audio `AudioBuffer` that the encoder reads. */
  datatype AudioBuffer = AudioBuffer(sampleRate: nat, length: nat, channels: seq<seq<real>>)
  {
    /** Every channel holds `length` samples, as `getChannelData` guarantees. */
    predicate Valid()
    {
      forall i | 0 <= i < |channels| :: |channels[i]| == length
    }

    function NumberOfChannels(): nat { |channels| }

    /** Bytes of sample data: `buffer.length * numOfChannels * 2`. */
    function DataSize(): nat { length * |channels| * 2 }

    /** Size of the whole stream: the `length` of the ArrayBuffer. */
    function FileSize(): nat { DataSize() + 44 }
  }

  const HeaderSize: nat := 44

  /** One byte per character: `setUint8(offset, str.charCodeAt(i))` keeps the low 8 bits. */
  function Ascii(s: string): (r: seq<Byte>)
    ensures |r| == |s|
  {
    seq(|s|, i requires 0 <= i < |s| => (s[i] as int) % 256)
  }

  /** Bytes 0-11: the RIFF chunk's id, its size, and the form type `WAVE`. */
  function RiffPreamble(riffSize: int): (r: seq<Byte>)
    ensures |r| == 12
  {
    Ascii("RIFF") + Le32(riffSize) + Ascii("WAVE")
  }

  /** Bytes 12-35: the 16-byte `fmt ` chunk for 16-bit PCM (format tag 1). */
  function FmtChunk(numChannels: int, sampleRate: int, byteRate: int, blockAlign: int): (r: seq<Byte>)
    ensures |r| == 24
  {
    Ascii("fmt ") + Le32(16) + Le16(1) + Le16(numChannels)
    + Le32(sampleRate) + Le32(byteRate) + Le16(blockAlign) + Le16(16)
  }

  /** Bytes 36-43: the `data` chunk's id and size. */
  function DataChunkHeader(dataSize: int): (r: seq<Byte>)
    ensures |r| == 8
  {
    Ascii("data") + Le32(dataSize)
  }

  /** The 44 header bytes for given field values, in the order `bufferToWave` writes them. */
  function Header(riffSize: int, numChannels: int, sampleRate: int,
                  byteRate: int, blockAlign: int, dataSize: int): (r: seq<Byte>)
    ensures |r| == HeaderSize
  {
    RiffPreamble(riffSize) + FmtChunk(numChannels, sampleRate, byteRate, blockAlign)
    + DataChunkHeader(dataSize)
  }

  /** The header of buffer `b`: byte rate and block align for 16-bit samples. */
  function HeaderBytes(b: AudioBuffer): (r: seq<Byte>)
    ensures |r| == HeaderSize
  {
    var n := b.NumberOfChannels();
    Header(b.FileSize() - 8, n, b.sampleRate, b.sampleRate * n * 2, n * 2, b.DataSize())
  }

  /** The two bytes stored for one sample. */
  function SampleBytes(s: real): (r: seq<Byte>)
    ensures |r| == 2
  {
    Le16(Quantize(s))
  }

  /** Read back with `getInt16`, a sample's two bytes give its code. */
  lemma SampleBytesRoundTrip(s: real)
    ensures I16(SampleBytes(s)) == Quantize(s)
  {
    I16OfLe16(Quantize(s));
  }

  /** The bytes of one channel, frame by frame. */
  function ChannelBytes(c: seq<real>): (r: seq<Byte>)
    ensures |r| == 2 * |c|
  {
    if c == [] then [] else ChannelBytes(c[..|c| - 1]) + SampleBytes(c[|c| - 1])
  }

  /** The bytes of all channels, one channel after another. */
  function DataBytes(chs: seq<seq<real>>): seq<Byte>
  {
    if chs == [] then [] else DataBytes(chs[..|chs| - 1]) + ChannelBytes(chs[|chs| - 1])
  }

  /** The whole stream `bufferToWave(b)` returns. */
  function WaveBytes(b: AudioBuffer): seq<Byte>
  {
    HeaderBytes(b) + DataBytes(b.channels)
  }

  /** Where sample `j` of channel `i` starts: channel-major, not frame-interleaved. */
  function SampleOffset(length: nat, i: nat, j: nat): nat
  {
    HeaderSize + 2 * (i * length + j)
  }

  // ---------------------------------------------------------------------
  // Reading the stream back

  /** The fields of a canonical 44-byte PCM header. */
  datatype WaveHeader = WaveHeader(
    riffSize: int, fmtSize: int, formatTag: int, numChannels: int, sampleRate: int,
    byteRate: int, blockAlign: int, bitsPerSample: int, dataSize: int)

  datatype ParseError = TooShort | BadTag(at: nat)

  datatype ParseResult = Parsed(header: WaveHeader) | Failed(error: ParseError)

  const RiffTag: seq<Byte> := [0x52, 0x49, 0x46, 0x46]
  const WaveTag: seq<Byte> := [0x57, 0x41, 0x56, 0x45]
  const FmtTag: seq<Byte> := [0x66, 0x6d, 0x74, 0x20]
  const DataTag: seq<Byte> := [0x64, 0x61, 0x74, 0x61]

  /** Read a canonical header: check the four tags, then decode the fields chunk by chunk. */
  function ParseHeader(bs: seq<Byte>): (r: ParseResult)
    ensures |bs| < HeaderSize ==> r == Failed(TooShort)
    ensures r.Parsed? <==>
              |bs| >= HeaderSize && bs[0..4] == RiffTag && bs[8..12] == WaveTag
              && bs[12..16] == FmtTag && bs[36..40] == DataTag
    ensures r.Parsed? ==>
              && r.header.riffSize == U32(bs[4..8]) && r.header.fmtSize == U32(bs[16..20])
              && r.header.formatTag == U16(bs[20..22]) && r.header.numChannels == U16(bs[22..24])
              && r.header.sampleRate == U32(bs[24..28]) && r.header.byteRate == U32(bs[28..32])
              && r.header.blockAlign == U16(bs[32..34]) && r.header.bitsPerSample == U16(bs[34..36])
              && r.header.dataSize == U32(bs[40..44])
  {
    if |bs| < HeaderSize then Failed(TooShort)
    else
      var p, f, d := bs[0..12], bs[12..36], bs[36..44];
      assert p[0..4] == bs[0..4] && p[4..8] == bs[4..8] && p[8..12] == bs[8..12];
      assert f[0..4] == bs[12..16] && d[0..4] == bs[36..40] && d[4..8] == bs[40..44];
      assert f[4..8] == bs[16..20];
      assert f[8..10] == bs[20..22];
      assert f[10..12] == bs[22..24];
      assert f[12..16] == bs[24..28];
      assert f[16..20] == bs[28..32];
      assert f[20..22] == bs[32..34];
      assert f[22..24] == bs[34..36];
      if p[0..4] != RiffTag then Failed(BadTag(0))
      else if p[8..12] != WaveTag then Failed(BadTag(8))
      else if f[0..4] != FmtTag then Failed(BadTag(12))
      else if d[0..4] != DataTag then Failed(BadTag(36))
      else Parsed(WaveHeader(
        U32(p[4..8]), U32(f[4..8]), U16(f[8..10]), U16(f[10..12]), U32(f[12..16]),
        U32(f[16..20]), U16(f[20..22]), U16(f[22..24]), U32(d[4..8])))
  }

  /** `getInt16` at the place where sample `j` of channel `i` lives. */
  function ReadSample(bs: seq<Byte>, length: nat, i: nat, j: nat): int
    requires SampleOffset(length, i, j) + 2 <= |bs|
  {
    var at := SampleOffset(length, i, j);
    I16(bs[at..at + 2])
  }

  // ---------------------------------------------------------------------
  // Properties of the layout

  /** Sample `j` of a channel occupies bytes `2j` and `2j + 1` of its channel bytes. */
  lemma {:induction false} ChannelBytesAt(c: seq<real>, j: nat)
    requires j < |c|
    ensures |ChannelBytes(c)| == 2 * |c|
    ensures ChannelBytes(c)[2 * j..2 * j + 2] == SampleBytes(c[j])
  {
    var init := c[..|c| - 1];
    if j < |c| - 1 {
      ChannelBytesAt(init, j);
      assert init[j] == c[j];
    }
  }

  lemma {:induction false} DataBytesLength(chs: seq<seq<real>>, length: nat)
    requires forall i | 0 <= i < |chs| :: |chs[i]| == length
    ensures |DataBytes(chs)| == 2 * (|chs| * length)
  {
    if chs != [] {
      var k := |chs| - 1;
      assert |DataBytes(chs[..k])| == 2 * (k * length) by {
        DataBytesLength(chs[..k], length);
      }
      assert DataBytes(chs) == DataBytes(chs[..k]) + ChannelBytes(chs[k]);
      MulSucc(k, length);
    }
  }

  lemma MulSucc(k: nat, length: nat)
    ensures (k + 1) * length == k * length + length
  {
  }

  lemma {:induction false} MulMonotone(a: nat, b: nat, c: nat)
    requires a <= b
    ensures a * c <= b * c
  {
    if a < b {
      MulMonotone(a, b - 1, c);
      MulSucc(b - 1, c);
    }
  }

  /** Arithmetic behind channel-major placement: earlier channels fill whole blocks. */
  lemma BlockBound(i: nat, j: nat, k: nat, length: nat)
    requires i < k && j < length
    ensures i * length + j + 1 <= k * length
  {
    MulSucc(i, length);
    MulMonotone(i + 1, k, length);
  }

  /** Sample `j` of channel `i` occupies bytes `2(i*length + j)` and the next of the data. */
  lemma {:induction false} DataBytesAt(chs: seq<seq<real>>, length: nat, i: nat, j: nat)
    requires forall k | 0 <= k < |chs| :: |chs[k]| == length
    requires i < |chs| && j < length
    ensures 2 * (i * length + j) + 2 <= |DataBytes(chs)|
    ensures DataBytes(chs)[2 * (i * length + j)..2 * (i * length + j) + 2] == SampleBytes(chs[i][j])
  {
    var k := |chs| - 1;
    var init, last := chs[..k], chs[k];
    var at := 2 * (i * length + j);
    assert DataBytes(chs) == DataBytes(init) + ChannelBytes(last);
    assert |DataBytes(init)| == 2 * (k * length) by {
      DataBytesLength(init, length);
    }
    assert 0 <= at by {
      MulMonotone(0, i, length);
    }
    if i < k {
      assert at + 2 <= |DataBytes(init)| by {
        BlockBound(i, j, k, length);
      }
      assert DataBytes(init)[at..at + 2] == SampleBytes(chs[i][j]) by {
        DataBytesAt(init, length, i, j);
        assert init[i] == chs[i];
      }
      SliceBefore(DataBytes(init), ChannelBytes(last), at, 2);
    } else {
      LastChannelAt(chs, length, j);
    }
  }

  /** `DataBytesAt` for the last channel, which follows the data of all the others. */
  lemma LastChannelAt(chs: seq<seq<real>>, length: nat, j: nat)
    requires forall k | 0 <= k < |chs| :: |chs[k]| == length
    requires |chs| > 0 && j < length
    ensures var at := 2 * ((|chs| - 1) * length + j);
            && 0 <= at && at + 2 <= |DataBytes(chs)|
            && DataBytes(chs)[at..at + 2] == SampleBytes(chs[|chs| - 1][j])
  {
    var k := |chs| - 1;
    var init, last := chs[..k], chs[k];
    MulMonotone(0, k, length);
    assert DataBytes(chs) == DataBytes(init) + ChannelBytes(last);
    assert |DataBytes(init)| == 2 * (k * length) by {
      DataBytesLength(init, length);
    }
    assert ChannelBytes(last)[2 * j..2 * j + 2] == SampleBytes(last[j]) by {
      ChannelBytesAt(last, j);
    }
    SliceAfter(DataBytes(init), ChannelBytes(last), 2 * j, 2);
  }

  /** A slice of the first part of a concatenation. */
  lemma SliceBefore(h: seq<Byte>, d: seq<Byte>, k: nat, w: nat)
    requires k + w <= |h|
    ensures (h + d)[k..k + w] == h[k..k + w]
  {
  }

  /** The stream is exactly `44 + length * numChannels * 2` bytes long. */
  lemma WaveLength(b: AudioBuffer)
    requires b.Valid()
    ensures |WaveBytes(b)| == b.FileSize()
  {
    assert |DataBytes(b.channels)| == b.DataSize() by {
      DataBytesLength(b.channels, b.length);
      assert b.length * |b.channels| == |b.channels| * b.length;
    }
  }

  lemma RiffPreambleFields(riffSize: int)
    ensures var p := RiffPreamble(riffSize);
            p[0..4] == RiffTag && U32(p[4..8]) == riffSize % Two32 && p[8..12] == WaveTag
  {
    var p := RiffPreamble(riffSize);
    assert p[0..4] == Ascii("RIFF") == RiffTag;
    assert p[4..8] == Le32(riffSize);
    assert p[8..12] == Ascii("WAVE") == WaveTag;
    U32OfLe32(riffSize);
  }

  lemma FmtChunkFields(numChannels: int, sampleRate: int, byteRate: int, blockAlign: int)
    ensures var f := FmtChunk(numChannels, sampleRate, byteRate, blockAlign);
            && f[0..4] == FmtTag && U32(f[4..8]) == 16 && U16(f[8..10]) == 1
            && U16(f[10..12]) == numChannels % Two16 && U32(f[12..16]) == sampleRate % Two32
            && U32(f[16..20]) == byteRate % Two32 && U16(f[20..22]) == blockAlign % Two16
            && U16(f[22..24]) == 16
  {
    var f := FmtChunk(numChannels, sampleRate, byteRate, blockAlign);
    assert f[0..4] == Ascii("fmt ") == FmtTag;
    assert f[4..8] == Le32(16) by { U32OfLe32(16); }
    assert f[8..10] == Le16(1) by { U16OfLe16(1); }
    assert f[10..12] == Le16(numChannels);
    assert f[12..16] == Le32(sampleRate);
    assert f[16..20] == Le32(byteRate);
    assert f[20..22] == Le16(blockAlign);
    assert f[22..24] == Le16(16);
    U32OfLe32(16);
    U16OfLe16(1);
    U16OfLe16(numChannels);
    U32OfLe32(sampleRate);
    U32OfLe32(byteRate);
    U16OfLe16(blockAlign);
    U16OfLe16(16);
  }

  lemma DataChunkHeaderFields(dataSize: int)
    ensures var d := DataChunkHeader(dataSize);
            d[0..4] == DataTag && U32(d[4..8]) == dataSize % Two32
  {
    var d := DataChunkHeader(dataSize);
    assert d[0..4] == Ascii("data") == DataTag;
    assert d[4..8] == Le32(dataSize);
    U32OfLe32(dataSize);
  }

  /** Parsing a header followed by anything gives back its fields, reduced as DataView reduces them. */
  lemma ParseHeaderOf(riffSize: int, numChannels: int, sampleRate: int,
                      byteRate: int, blockAlign: int, dataSize: int, rest: seq<Byte>)
    ensures ParseHeader(Header(riffSize, numChannels, sampleRate, byteRate, blockAlign, dataSize) + rest)
            == Parsed(WaveHeader(riffSize % Two32, 16, 1, numChannels % Two16, sampleRate % Two32,
                                 byteRate % Two32, blockAlign % Two16, 16, dataSize % Two32))
  {
    var p := RiffPreamble(riffSize);
    var f := FmtChunk(numChannels, sampleRate, byteRate, blockAlign);
    var d := DataChunkHeader(dataSize);
    var bs := Header(riffSize, numChannels, sampleRate, byteRate, blockAlign, dataSize) + rest;
    assert bs[0..12] == p && bs[12..36] == f && bs[36..44] == d;
    RiffPreambleFields(riffSize);
    FmtChunkFields(numChannels, sampleRate, byteRate, blockAlign);
    DataChunkHeaderFields(dataSize);
  }

  /** The header of the stream as a parser reads it; fields are reduced as DataView reduces them. */
  lemma HeaderRoundTrip(b: AudioBuffer)
    requires b.Valid()
    ensures var bs := WaveBytes(b);
            var n := b.NumberOfChannels();
            ParseHeader(bs) == Parsed(WaveHeader(
              (|bs| - 8) % Two32, 16, 1, n % Two16, b.sampleRate % Two32,
              (b.sampleRate * n * 2) % Two32, (n * 2) % Two16, 16, (|bs| - HeaderSize) % Two32))
  {
    var n := b.NumberOfChannels();
    WaveLength(b);
    ParseHeaderOf(b.FileSize() - 8, n, b.sampleRate, b.sampleRate * n * 2, n * 2, b.DataSize(),
                  DataBytes(b.channels));
  }

  /** The four ASCII tags sit at bytes 0, 8, 12 and 36 of every stream. */
  lemma HeaderTags(b: AudioBuffer)
    requires b.Valid()
    ensures var bs := WaveBytes(b);
            && |bs| >= HeaderSize
            && bs[0..4] == RiffTag && bs[8..12] == WaveTag && bs[12..16] == FmtTag && bs[36..40] == DataTag
  {
    HeaderRoundTrip(b);
  }

  /** The header fields that DataView stores without wrapping. */
  predicate FitsHeader(b: AudioBuffer)
  {
    b.FileSize() < Two32 && b.sampleRate < Two32 && b.sampleRate * b.NumberOfChannels() * 2 < Two32
    && b.NumberOfChannels() * 2 < Two16
  }

  /**
   * When no field overflows, the header reads back the exact values: the RIFF
   * size is the stream length minus 8 (data size + 36) and the data size is
   * exactly the number of bytes after the header.
   */
  lemma HeaderExact(b: AudioBuffer)
    requires b.Valid() && FitsHeader(b)
    ensures |WaveBytes(b)| == b.DataSize() + HeaderSize
    ensures var n := b.NumberOfChannels();
            ParseHeader(WaveBytes(b)) == Parsed(WaveHeader(
              b.DataSize() + 36, 16, 1, n, b.sampleRate, b.sampleRate * n * 2, n * 2, 16, b.DataSize()))
  {
    HeaderRoundTrip(b);
    WaveLength(b);
    FieldsFit(b);
  }

  /** Under `FitsHeader`, DataView's reductions leave every header field as it is. */
  lemma FieldsFit(b: AudioBuffer)
    requires FitsHeader(b)
    ensures var n := b.NumberOfChannels();
            && (b.FileSize() - 8) % Two32 == b.DataSize() + 36
            && (b.FileSize() - HeaderSize) % Two32 == b.DataSize()
            && n % Two16 == n && b.sampleRate % Two32 == b.sampleRate
            && (b.sampleRate * n * 2) % Two32 == b.sampleRate * n * 2 && (n * 2) % Two16 == n * 2
  {
    var n := b.NumberOfChannels();
    ModSmall(b.DataSize() + 36, Two32);
    ModSmall(b.DataSize(), Two32);
    ModSmall(n, Two16);
    ModSmall(b.sampleRate, Two32);
    ModSmall(b.sampleRate * n * 2, Two32);
    ModSmall(n * 2, Two16);
  }

  /** `ParseHeaderOf` for field values that fit: nothing is reduced. */
  lemma ParseHeaderOfExact(riffSize: int, numChannels: int, sampleRate: int,
                           byteRate: int, blockAlign: int, dataSize: int, rest: seq<Byte>)
    requires 0 <= riffSize < Two32 && 0 <= sampleRate < Two32 && 0 <= byteRate < Two32
    requires 0 <= dataSize < Two32 && 0 <= numChannels < Two16 && 0 <= blockAlign < Two16
    ensures ParseHeader(Header(riffSize, numChannels, sampleRate, byteRate, blockAlign, dataSize) + rest)
            == Parsed(WaveHeader(riffSize, 16, 1, numChannels, sampleRate, byteRate, blockAlign, 16, dataSize))
  {
    ParseHeaderOf(riffSize, numChannels, sampleRate, byteRate, blockAlign, dataSize, rest);
    ModSmall(riffSize, Two32);
    ModSmall(sampleRate, Two32);
    ModSmall(byteRate, Two32);
    ModSmall(dataSize, Two32);
    ModSmall(numChannels, Two16);
    ModSmall(blockAlign, Two16);
  }

  /** Reading sample `j` of channel `i` back gives the code `Quantize` assigns to it. */
  lemma SampleRoundTrip(b: AudioBuffer, i: nat, j: nat)
    requires b.Valid() && i < b.NumberOfChannels() && j < b.length
    ensures SampleOffset(b.length, i, j) + 2 <= |WaveBytes(b)|
    ensures ReadSample(WaveBytes(b), b.length, i, j) == Quantize(b.channels[i][j])
    ensures -32767 <= ReadSample(WaveBytes(b), b.length, i, j) <= 32767
  {
    SampleInStream(HeaderBytes(b), b.channels, b.length, i, j);
    QuantizeBounds(b.channels[i][j]);
  }

  /** `SampleRoundTrip` for any 44-byte header in front of the data. */
  lemma SampleInStream(h: seq<Byte>, chs: seq<seq<real>>, length: nat, i: nat, j: nat)
    requires |h| == HeaderSize
    requires forall k | 0 <= k < |chs| :: |chs[k]| == length
    requires i < |chs| && j < length
    ensures SampleOffset(length, i, j) + 2 <= |h + DataBytes(chs)|
    ensures ReadSample(h + DataBytes(chs), length, i, j) == Quantize(chs[i][j])
  {
    var k := 2 * (i * length + j);
    var s := chs[i][j];
    assert 0 <= k by {
      MulMonotone(0, i, length);
    }
    assert k + 2 <= |DataBytes(chs)| && DataBytes(chs)[k..k + 2] == SampleBytes(s) by {
      DataBytesAt(chs, length, i, j);
    }
    SliceAfter(h, DataBytes(chs), k, 2);
    SampleBytesRoundTrip(s);
  }

  /** A slice of the second part of a concatenation. */
  lemma SliceAfter(h: seq<Byte>, d: seq<Byte>, k: nat, w: nat)
    requires k + w <= |d|
    ensures (h + d)[|h| + k..|h| + k + w] == d[k..k + w]
  {
  }

  /**
   * The layout is channel-major: the frames of one channel are adjacent, and
   * channel `i + 1` starts right after the last frame of channel `i`.  (A
   * frame-interleaved WAVE file would instead put frame `j` of channel `i + 1`
   * right after frame `j` of channel `i`.)
   */
  lemma ChannelMajorOrder(length: nat, i: nat, j: nat)
    ensures SampleOffset(length, i, j + 1) == SampleOffset(length, i, j) + 2
    ensures length > 0 ==> SampleOffset(length, i + 1, 0) == SampleOffset(length, i, length - 1) + 2
    ensures length > 1 ==> SampleOffset(length, i + 1, j) != SampleOffset(length, i, j) + 2
  {
    MulSucc(i, length);
  }

  /** Distinct samples never share a byte: offsets grow with (channel, frame) in lexicographic order. */
  lemma SampleOffsetsOrdered(length: nat, i: nat, j: nat, i': nat, j': nat)
    requires j < length && j' < length
    requires i < i' || (i == i' && j < j')
    ensures SampleOffset(length, i, j) + 2 <= SampleOffset(length, i', j')
  {
    if i < i' {
      BlockBound(i, j, i', length);
      assert i' * length <= i' * length + j';
    }
  }

  /**
   * A 10-frame stereo buffer at 44100 Hz gives 84 bytes; its header reads a
   * RIFF size of 76, 2 channels, a byte rate of 176400, a block align of 4 and
   * 40 data bytes.
   */
  lemma StereoExample(b: AudioBuffer)
    requires b.Valid() && b.sampleRate == 44100 && b.length == 10 && b.NumberOfChannels() == 2
    ensures |WaveBytes(b)| == 84
    ensures ParseHeader(WaveBytes(b)) == Parsed(WaveHeader(76, 16, 1, 2, 44100, 176400, 4, 16, 40))
    ensures U32(WaveBytes(b)[4..8]) == 76 && U16(WaveBytes(b)[22..24]) == 2
  {
    HeaderExact(b);
  }
}
