/**
 * `bufferToWave` as the source runs it: allocate a zero-filled ArrayBuffer
 * of the final size, then write the header fields and the samples through
 * a DataView, advancing `offset` after every write.  The method is proved to
 * leave exactly `WaveFormat.WaveBytes(buffer)` in the array.
 */
module WaveEncoder {
  import opened LittleEndian
  import opened Samples
  import opened WaveFormat

  /** `s` with `bs` written over it starting at `at`, everything else as it was. */
  function Spliced(s: seq<Byte>, at: nat, bs: seq<Byte>): (r: seq<Byte>)
    requires at + |bs| <= |s|
    ensures |r| == |s|
  {
    s[..at] + bs + s[at + |bs|..]
  }

  /** After a write at `at`, the prefix up to the end of the write is the old prefix plus the bytes. */
  lemma SplicedPrefix(s: seq<Byte>, at: nat, bs: seq<Byte>)
    requires at + |bs| <= |s|
    ensures Spliced(s, at, bs)[..at + |bs|] == s[..at] + bs
  {
  }

  /** A write at `at` leaves everything before `from <= at` alone and extends `s[from..at]` by the bytes. */
  lemma SplicedAfter(s: seq<Byte>, from: nat, at: nat, bs: seq<Byte>)
    requires from <= at && at + |bs| <= |s|
    ensures Spliced(s, at, bs)[..from] == s[..from]
    ensures Spliced(s, at, bs)[from..at + |bs|] == s[from..at] + bs
  {
  }

  /** A write that ends at or before `k` leaves everything from `k` on alone. */
  lemma SplicedBeyond(s: seq<Byte>, at: nat, bs: seq<Byte>, k: nat)
    requires at + |bs| <= k <= |s|
    ensures Spliced(s, at, bs)[k..] == s[k..]
  {
    assert Spliced(s, at, bs)[k..] == s[at + |bs|..][k - at - |bs|..];
  }

  /** Two writes back to back are one write of both byte strings. */
  lemma SplicedConcat(s: seq<Byte>, at: nat, bs: seq<Byte>, cs: seq<Byte>)
    requires at + |bs| + |cs| <= |s|
    ensures Spliced(Spliced(s, at, bs), at + |bs|, cs) == Spliced(s, at, bs + cs)
  {
    var t := Spliced(s, at, bs);
    assert t[..at + |bs|] == s[..at] + bs;
    assert t[at + |bs| + |cs|..] == s[at + |bs| + |cs|..];
  }

  /** `view.setUint8(offset, v)`: the low 8 bits of `v` at `offset`. */
  method SetUint8(view: array<Byte>, offset: nat, v: int)
    requires offset + 1 <= view.Length
    modifies view
    ensures view[..] == Spliced(old(view[..]), offset, [v % 256])
  {
    view[offset] := v % 256;
  }

  /** `view.setUint16(offset, v, true)`. */
  method SetUint16(view: array<Byte>, offset: nat, v: int)
    requires offset + 2 <= view.Length
    modifies view
    ensures view[..] == Spliced(old(view[..]), offset, Le16(v))
  {
    var bytes := Le16(v);
    view[offset] := bytes[0];
    view[offset + 1] := bytes[1];
  }

  /** `view.setInt16(offset, v, true)`: ToInt16 of `v`, in two's complement. */
  method SetInt16(view: array<Byte>, offset: nat, v: real)
    requires offset + 2 <= view.Length
    modifies view
    ensures view[..] == Spliced(old(view[..]), offset, Le16(ToInt16(v)))
  {
    var bytes := Le16(ToInt16(v));
    view[offset] := bytes[0];
    view[offset + 1] := bytes[1];
  }

  /** `view.setUint32(offset, v, true)`. */
  method SetUint32(view: array<Byte>, offset: nat, v: int)
    requires offset + 4 <= view.Length
    modifies view
    ensures view[..] == Spliced(old(view[..]), offset, Le32(v))
  {
    var bytes := Le32(v);
    view[offset] := bytes[0];
    view[offset + 1] := bytes[1];
    view[offset + 2] := bytes[2];
    view[offset + 3] := bytes[3];
  }

  /** `writeString(str)`: one `setUint8` per character code, advancing the offset. */
  method WriteString(view: array<Byte>, offset: nat, str: string) returns (next: nat)
    requires offset + |str| <= view.Length
    modifies view
    ensures next == offset + |str|
    ensures view[..] == Spliced(old(view[..]), offset, Ascii(str))
  {
    next := offset;
    for i := 0 to |str|
      invariant next == offset + i
      invariant view[..] == Spliced(old(view[..]), offset, Ascii(str)[..i])
    {
      SetUint8(view, next, str[i] as int);
      assert Ascii(str)[..i + 1] == Ascii(str)[..i] + [(str[i] as int) % 256];
      SplicedConcat(old(view[..]), offset, Ascii(str)[..i], [(str[i] as int) % 256]);
      next := next + 1;
    }
    assert Ascii(str)[..|str|] == Ascii(str);
  }

  /** What `setInt16` stores for the clamped, scaled sample is that sample's bytes. */
  lemma StoredSample(s: real)
    ensures Le16(ToInt16(Max(-1.0, Min(1.0, s)) * 32767.0)) == SampleBytes(s)
  {
  }

  /** Appending one sample's bytes extends the bytes of a channel prefix by one frame. */
  lemma ChannelBytesSnoc(c: seq<real>, j: nat)
    requires j < |c|
    ensures ChannelBytes(c[..j + 1]) == ChannelBytes(c[..j]) + SampleBytes(c[j])
  {
    assert c[..j + 1][..j] == c[..j];
  }

  /** Writing frame `j` right after frames `0..j` of a channel extends the written prefix by one frame. */
  lemma ChannelStep(s: seq<Byte>, offset: nat, c: seq<real>, j: nat)
    requires j < |c| && offset + 2 * |c| <= |s|
    ensures Spliced(Spliced(s, offset, ChannelBytes(c[..j])), offset + 2 * j, SampleBytes(c[j]))
            == Spliced(s, offset, ChannelBytes(c[..j + 1]))
  {
    ChannelBytesSnoc(c, j);
    SplicedConcat(s, offset, ChannelBytes(c[..j]), SampleBytes(c[j]));
  }

  /** Appending one channel's bytes extends the data of a channel prefix by one channel. */
  lemma DataBytesSnoc(chs: seq<seq<real>>, i: nat)
    requires i < |chs|
    ensures DataBytes(chs[..i + 1]) == DataBytes(chs[..i]) + ChannelBytes(chs[i])
  {
    assert chs[..i + 1][..i] == chs[..i];
  }

  /**
   * The header part of `bufferToWave`: 44 bytes, leaving `offset` at 44.  The
   * ghost variables follow the three chunks the writes fill in turn.
   */
  method WriteHeader(view: array<Byte>, buffer: AudioBuffer) returns (offset: nat)
    requires view.Length == buffer.FileSize()
    modifies view
    ensures offset == HeaderSize
    ensures view[..offset] == HeaderBytes(buffer)
    ensures view[HeaderSize..] == old(view[HeaderSize..])
  {
    var numOfChannels := buffer.NumberOfChannels();
    var length := view.Length;
    offset := 0;
    ghost var v := view[..];

    // RIFF chunk descriptor, bytes 0-11
    offset := WriteString(view, offset, "RIFF");
    SplicedBeyond(v, offset - 4, Ascii("RIFF"), HeaderSize);
    SplicedPrefix(v, 0, Ascii("RIFF"));
    ghost var riff := Ascii("RIFF");
    assert view[..offset] == riff;
    v := view[..];
    SetUint32(view, offset, length - 8);
    SplicedBeyond(v, offset, Le32(length - 8), HeaderSize);
    SplicedPrefix(v, offset, Le32(length - 8));
    offset, riff := offset + 4, riff + Le32(length - 8);
    assert view[..offset] == riff;
    v := view[..];
    offset := WriteString(view, offset, "WAVE");
    SplicedBeyond(v, offset - 4, Ascii("WAVE"), HeaderSize);
    SplicedPrefix(v, offset - 4, Ascii("WAVE"));
    riff := riff + Ascii("WAVE");
    assert view[..offset] == riff == RiffPreamble(buffer.FileSize() - 8);

    // fmt sub-chunk, bytes 12-35
    v := view[..];
    offset := WriteString(view, offset, "fmt ");
    SplicedBeyond(v, offset - 4, Ascii("fmt "), HeaderSize);
    SplicedAfter(v, 12, 12, Ascii("fmt "));
    ghost var fmt := Ascii("fmt ");
    assert view[..12] == riff && view[12..offset] == fmt;
    v := view[..];
    SetUint32(view, offset, 16);
    SplicedBeyond(v, offset, Le32(16), HeaderSize);
    SplicedAfter(v, 12, offset, Le32(16));
    offset, fmt := offset + 4, fmt + Le32(16);
    assert view[..12] == riff && view[12..offset] == fmt;
    v := view[..];
    SetUint16(view, offset, 1);
    SplicedBeyond(v, offset, Le16(1), HeaderSize);
    SplicedAfter(v, 12, offset, Le16(1));
    offset, fmt := offset + 2, fmt + Le16(1);
    assert view[..12] == riff && view[12..offset] == fmt;
    v := view[..];
    SetUint16(view, offset, numOfChannels);
    SplicedBeyond(v, offset, Le16(numOfChannels), HeaderSize);
    SplicedAfter(v, 12, offset, Le16(numOfChannels));
    offset, fmt := offset + 2, fmt + Le16(numOfChannels);
    assert view[..12] == riff && view[12..offset] == fmt;
    v := view[..];
    SetUint32(view, offset, buffer.sampleRate);
    SplicedBeyond(v, offset, Le32(buffer.sampleRate), HeaderSize);
    SplicedAfter(v, 12, offset, Le32(buffer.sampleRate));
    offset, fmt := offset + 4, fmt + Le32(buffer.sampleRate);
    assert view[..12] == riff && view[12..offset] == fmt;
    v := view[..];
    SetUint32(view, offset, buffer.sampleRate * numOfChannels * 2);
    SplicedBeyond(v, offset, Le32(buffer.sampleRate * numOfChannels * 2), HeaderSize);
    SplicedAfter(v, 12, offset, Le32(buffer.sampleRate * numOfChannels * 2));
    offset, fmt := offset + 4, fmt + Le32(buffer.sampleRate * numOfChannels * 2);
    assert view[..12] == riff && view[12..offset] == fmt;
    v := view[..];
    SetUint16(view, offset, numOfChannels * 2);
    SplicedBeyond(v, offset, Le16(numOfChannels * 2), HeaderSize);
    SplicedAfter(v, 12, offset, Le16(numOfChannels * 2));
    offset, fmt := offset + 2, fmt + Le16(numOfChannels * 2);
    assert view[..12] == riff && view[12..offset] == fmt;
    v := view[..];
    SetUint16(view, offset, 16);
    SplicedBeyond(v, offset, Le16(16), HeaderSize);
    SplicedAfter(v, 12, offset, Le16(16));
    offset, fmt := offset + 2, fmt + Le16(16);
    assert view[..12] == riff && view[12..offset] == fmt;
    assert fmt == FmtChunk(numOfChannels, buffer.sampleRate, buffer.sampleRate * numOfChannels * 2,
                           numOfChannels * 2);
    ghost var riffFmt := riff + fmt;
    assert view[..offset] == riffFmt by {
      assert view[..offset] == view[..12] + view[12..offset];
    }

    // data sub-chunk header, bytes 36-43
    v := view[..];
    offset := WriteString(view, offset, "data");
    SplicedBeyond(v, offset - 4, Ascii("data"), HeaderSize);
    SplicedAfter(v, 36, 36, Ascii("data"));
    ghost var data := Ascii("data");
    assert view[..36] == riffFmt && view[36..offset] == data;
    v := view[..];
    SetUint32(view, offset, buffer.length * numOfChannels * 2);
    SplicedBeyond(v, offset, Le32(buffer.length * numOfChannels * 2), HeaderSize);
    SplicedAfter(v, 36, offset, Le32(buffer.length * numOfChannels * 2));
    offset, data := offset + 4, data + Le32(buffer.length * numOfChannels * 2);
    assert view[..36] == riffFmt && view[36..offset] == data;
    assert data == DataChunkHeader(buffer.DataSize());
    assert view[..offset] == view[..36] + view[36..offset];
  }

  /** The body of the inner loop: clamp the sample, scale it by 0x7fff and store it with `setInt16`. */
  method WriteSample(view: array<Byte>, offset: nat, s: real)
    requires offset + 2 <= view.Length
    modifies view
    ensures view[..] == Spliced(old(view[..]), offset, SampleBytes(s))
  {
    var sample := Max(-1.0, Min(1.0, s));
    SetInt16(view, offset, sample * 32767.0);
    StoredSample(s);
  }

  /** The inner loop of `bufferToWave`: clamp, scale and store every frame of one channel. */
  method WriteChannel(view: array<Byte>, offset: nat, channelData: seq<real>) returns (next: nat)
    requires offset + 2 * |channelData| <= view.Length
    modifies view
    ensures next == offset + 2 * |channelData|
    ensures view[..] == Spliced(old(view[..]), offset, ChannelBytes(channelData))
  {
    next := offset;
    for j := 0 to |channelData|
      invariant next == offset + 2 * j
      invariant view[..] == Spliced(old(view[..]), offset, ChannelBytes(channelData[..j]))
    {
      ghost var before := view[..];
      WriteSample(view, next, channelData[j]);
      ChannelStep(old(view[..]), offset, channelData, j);
      assert view[..] == Spliced(before, next, SampleBytes(channelData[j]));
      next := next + 2;
    }
    assert channelData[..|channelData|] == channelData;
  }

  /**
   * The outer loop of `bufferToWave`: every channel in turn, from byte 44 on,
   * leaving the header bytes as they are.
   */
  method WriteSamples(view: array<Byte>, start: nat, buffer: AudioBuffer) returns (offset: nat)
    requires start == HeaderSize
    requires buffer.Valid()
    requires view.Length == HeaderSize + |DataBytes(buffer.channels)|
    modifies view
    ensures offset == view.Length
    ensures view[..HeaderSize] == old(view[..HeaderSize])
    ensures view[HeaderSize..] == DataBytes(buffer.channels)
  {
    var numOfChannels := buffer.NumberOfChannels();
    ghost var chs := buffer.channels;
    offset := start;
    for i := 0 to numOfChannels
      invariant HeaderSize <= offset <= view.Length
      invariant view[..HeaderSize] == old(view[..HeaderSize])
      invariant view[HeaderSize..offset] == DataBytes(chs[..i])
    {
      var channelData := buffer.channels[i];
      NextChannelFits(chs, buffer.length, i);
      ghost var v := view[..];
      var next := WriteChannel(view, offset, channelData);
      DataStep(v, offset, chs, i);
      offset := next;
    }
    assert chs[..numOfChannels] == chs;
  }

  /**
   * `bufferToWave(buffer)`: the returned ArrayBuffer is new, has the final
   * size, and holds exactly the layout `WaveBytes` describes, header first,
   * then every channel's samples in turn.
   */
  method BufferToWave(buffer: AudioBuffer) returns (view: array<Byte>)
    requires buffer.Valid()
    ensures fresh(view)
    ensures view.Length == buffer.FileSize()
    ensures view[..] == WaveBytes(buffer)
  {
    var numOfChannels := buffer.NumberOfChannels();
    var length := buffer.length * numOfChannels * 2 + 44;
    view := new Byte[length](_ => 0);
    var offset := WriteHeader(view, buffer);
    WaveLength(buffer);
    offset := WriteSamples(view, offset, buffer);
    Assembled(view[..], HeaderBytes(buffer), DataBytes(buffer.channels));
  }

  /** A sequence whose first 44 bytes are `h` and whose remaining bytes are `d` is `h + d`. */
  lemma Assembled(s: seq<Byte>, h: seq<Byte>, d: seq<Byte>)
    requires |h| == HeaderSize <= |s| && s[..HeaderSize] == h && s[HeaderSize..] == d
    ensures s == h + d
  {
    assert s == s[..HeaderSize] + s[HeaderSize..];
  }

  /** Channel `i` fits between the data of channels `0..i` and the end of the data. */
  lemma NextChannelFits(chs: seq<seq<real>>, length: nat, i: nat)
    requires forall k | 0 <= k < |chs| :: |chs[k]| == length
    requires i < |chs|
    ensures |DataBytes(chs[..i])| + 2 * |chs[i]| <= |DataBytes(chs)|
  {
    DataBytesLength(chs[..i], length);
    DataBytesLength(chs, length);
    MulSucc(i, length);
    MulMonotone(i + 1, |chs|, length);
  }

  /**
   * Writing channel `i` right after the data of channels `0..i` leaves the
   * header alone and extends the data by that channel.
   */
  lemma DataStep(v: seq<Byte>, offset: nat, chs: seq<seq<real>>, i: nat)
    requires i < |chs|
    requires HeaderSize <= offset && offset + 2 * |chs[i]| <= |v|
    requires v[HeaderSize..offset] == DataBytes(chs[..i])
    ensures Spliced(v, offset, ChannelBytes(chs[i]))[..HeaderSize] == v[..HeaderSize]
    ensures Spliced(v, offset, ChannelBytes(chs[i]))[HeaderSize..offset + 2 * |chs[i]|]
            == DataBytes(chs[..i + 1])
  {
    SplicedAfter(v, HeaderSize, offset, ChannelBytes(chs[i]));
    DataBytesSnoc(chs, i);
  }
}
