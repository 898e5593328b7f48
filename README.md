# Audio-Volumizer WAV encoder, modelled in Dafny

Audio-Volumizer is a browser page that loads an audio file, lets the user
change its volume, and downloads the result as a WAVE file. The only
computation in the repository is `bufferToWave`. It turns a rendered
multi-channel PCM `AudioBuffer` into a RIFF/WAVE byte stream:

- a canonical 44-byte header: `RIFF` and its size, `WAVE`, a 16-byte
  `fmt ` chunk for 16-bit PCM, then the `data` chunk id and size;
- then every sample, clamped to [-1, 1], scaled by 0x7fff and stored as a
  little-endian int16.

This project models that function and the gate on the uploaded file's MIME
type. It then proves what the produced bytes are.

- `little_endian.dfy` (`LittleEndian`): the bytes that `DataView.setUint16`,
  `setInt16` and `setUint32` store with `littleEndian = true`. It includes
  their reduction modulo 2^16 or 2^32, and the decoders that read these
  fields back.
- `samples.dfy` (`Samples`): the conversion of one sample. It is
  `Math.max(-1, Math.min(1, s))`, times 0x7fff, then ECMAScript ToInt16.
  ToInt16 truncates toward zero, then wraps to the signed 16-bit range.
- `wave_format.dfy` (`WaveFormat`): the byte stream as a pure function of the
  buffer (`WaveBytes`), and a parser for the 44-byte header (`ParseHeader`).
  It also holds the lemmas relating the two: lengths, field positions,
  sample offsets, header and sample round trips.
- `wave_encoder.dfy` (`WaveEncoder`): `bufferToWave` as the source runs it.
  It allocates a zero-filled byte array and writes through a view while
  advancing `offset`. The method is proved to leave exactly `WaveBytes(buffer)`
  in the array.
- `upload.dfy` (`Upload`): the gate `file.type.startsWith('audio/')` in
  `handleFileUpload`.

Notes on the model:

- **Rounding.** The code does not round samples. `setInt16(offset, sample * 0x7fff)`
  applies ToInt16, which truncates toward zero. The model therefore truncates:
  a sample of 0.9 / 32767 gets code 0, not 1. The usual PCM formula rounds; the
  model follows the code.
- **Sample order.** Samples are written channel-major, as in the code: all of
  channel 0, then all of channel 1, and so on. This is not the
  frame-interleaved order that the WAVE format uses for multi-channel PCM.
  `ChannelMajorOrder` states the difference.
- **Wrap-around.** Header fields that exceed 16 or 32 bits wrap modulo 2^16 or
  2^32, exactly as DataView stores them. `HeaderRoundTrip` states the general
  case. `HeaderExact` covers buffers whose fields fit, where every field reads
  back unchanged.
- **Empty buffers.** A buffer with zero channels or zero frames is accepted,
  as the code accepts it. It yields the bare 44-byte header.
- **Helper methods.** `WriteHeader`, `WriteSample`, `WriteChannel` and `WriteSamples` are
  sections of the one `bufferToWave` body, pulled out as methods. They keep
  the source's statements and order and write into the same array.
  `WriteHeader` returns the offset it reaches (44), and `BufferToWave` passes
  that offset on to `WriteSamples`; it then moves through `WriteChannel` and
  `WriteSample` two bytes at a time.

## Model

| member | source | states |
|---|---|---|
| LittleEndian.Le16 | script.js:122-133 | the two bytes `setUint16`/`setInt16` store: low byte first, after reduction modulo 2^16 (read back by `U16OfLe16`) |
| LittleEndian.Le32 | script.js:116-136 | the four bytes `setUint32` stores: low byte first, after reduction modulo 2^32 (read back by `U32OfLe32`) |
| LittleEndian.U16OfLe16 | script.js:122-133 | reading a 16-bit little-endian field back gives the value written, reduced modulo 2^16 |
| LittleEndian.U32OfLe32 | script.js:116-136 | reading a 32-bit little-endian field back gives the value written, reduced modulo 2^32 |
| LittleEndian.U16OfLe16Exact | script.js:122-133 | a value below 2^16 is read back unchanged |
| LittleEndian.U32OfLe32Exact | script.js:116-136 | a value below 2^32 is read back unchanged |
| LittleEndian.I16OfLe16 | script.js:142 | a signed 16-bit value stored by setInt16 is read back unchanged by getInt16 |
| Samples.Clamp | script.js:141 | the clamped sample lies in [-1, 1], equals the input inside that range, and saturates at -1 or 1 outside it |
| Samples.Trunc | script.js:142 | the integer part toward zero: within one unit of the input, never farther from zero |
| Samples.ToInt16 | script.js:142 | the stored code lies in [-2^15, 2^15) and agrees with the truncated value modulo 2^16 |
| Samples.Quantize | script.js:141-142 | the code stored for one sample, ToInt16(clamp(s) * 32767); `QuantizeBounds`, `QuantizeSaturates`, `QuantizeMonotone` and `QuantizeOdd` state its properties |
| Samples.ToInt16InRange | script.js:142 | ToInt16 does not wrap a value already inside the signed 16-bit range |
| Samples.QuantizeBounds | script.js:141-142 | a stored sample is the truncation of clamp(s) * 32767, lies in [-32767, 32767], and is within one step of the scaled sample, toward zero |
| Samples.QuantizeSaturates | script.js:141-142 | inputs at or beyond 1 give 32767, at or beyond -1 give -32767, and 0 gives 0 |
| Samples.QuantizeMonotone | script.js:141-142 | a larger sample never gets a smaller code |
| Samples.QuantizeOdd | script.js:141-142 | negating a sample negates its code |
| WaveFormat.AudioBuffer.Valid | script.js:139-140 | every channel `getChannelData(i)` returns holds exactly `buffer.length` samples |
| WaveFormat.AudioBuffer.NumberOfChannels | script.js:105 | `numOfChannels`, the number of channels of the buffer |
| WaveFormat.AudioBuffer.DataSize | script.js:135 | the data chunk size `buffer.length * numOfChannels * 2` |
| WaveFormat.AudioBuffer.FileSize | script.js:106 | the size of the allocated array, data size + 44 |
| WaveFormat.Ascii | script.js:109-113 | the bytes `writeString` stores: one per character, its code modulo 256 (the bytes `WriteString` is proved to write) |
| WaveFormat.RiffPreamble | script.js:115-118 | bytes 0-11: `RIFF`, the 32-bit little-endian RIFF size, `WAVE` (12 bytes long) |
| WaveFormat.FmtChunk | script.js:119-133 | bytes 12-35: `fmt `, size 16, format tag 1, channels, sample rate, byte rate, block align, 16 bits per sample, with the 16- and 32-bit widths of lines 120-133 (24 bytes long) |
| WaveFormat.DataChunkHeader | script.js:134-136 | bytes 36-43: `data` and the 32-bit little-endian data size (8 bytes long) |
| WaveFormat.Header | script.js:115-136 | the 44 header bytes for any field values: the RIFF preamble, the fmt chunk, then the data chunk header, in the order the code writes them |
| WaveFormat.HeaderBytes | script.js:115-136 | the 44 header bytes of a buffer, with RIFF size = stream length - 8, byte rate = sampleRate * channels * 2 and block align = channels * 2 |
| WaveFormat.SampleBytes | script.js:141-142 | the two bytes stored for one sample, Le16 of its code |
| WaveFormat.SampleBytesRoundTrip | script.js:141-142 | read back with getInt16, a sample's two bytes give exactly `Quantize` of the sample |
| WaveFormat.ChannelBytes | script.js:140-144 | the bytes of one channel, frame by frame, two per frame |
| WaveFormat.DataBytes | script.js:138-145 | the bytes of all channels, one channel after another (its length and layout are stated by `DataBytesLength` and `DataBytesAt`) |
| WaveFormat.WaveBytes | script.js:104-148 | the whole stream `bufferToWave` returns: the header, then the channel-major data (what `BufferToWave` is proved to produce) |
| WaveFormat.SampleOffset | script.js:138-145 | the value of `offset` at line 142 when sample j of channel i is written: 44 + 2(i * length + j) |
| WaveFormat.ParseHeader | script.js:115-136 | the header decoder: it fails with TooShort below 44 bytes, succeeds exactly when the four tags are at bytes 0, 8, 12 and 36, and reads each field from its fixed byte position |
| WaveFormat.RiffPreambleFields | script.js:115-118 | bytes 0-11 hold `RIFF`, the RIFF size modulo 2^32 and `WAVE` |
| WaveFormat.FmtChunkFields | script.js:119-133 | bytes 12-35 hold `fmt `, size 16, format tag 1, channels, sample rate, byte rate, block align and 16 bits per sample, each reduced as DataView stores it |
| WaveFormat.DataChunkHeaderFields | script.js:134-136 | bytes 36-43 hold `data` and the data size modulo 2^32 |
| WaveFormat.ParseHeaderOf | script.js:115-136 | parsing any header followed by any bytes gives back its fields, reduced modulo 2^16 or 2^32 |
| WaveFormat.ParseHeaderOfExact | script.js:115-136 | parsing a header whose fields fit gives back the exact fields |
| WaveFormat.WaveLength | script.js:106-107 | the stream is exactly 44 + length * numberOfChannels * 2 bytes, the size line 106 allocates |
| WaveFormat.HeaderRoundTrip | script.js:105-136 | for every buffer, the parsed header is (stream length - 8, 16, 1, channels, sample rate, byte rate, block align, 16, stream length - 44), each modulo 2^16 or 2^32 |
| WaveFormat.HeaderTags | script.js:115-134 | every stream carries `RIFF`, `WAVE`, `fmt ` and `data` at bytes 0, 8, 12 and 36 |
| WaveFormat.HeaderExact | script.js:105-136 | when no field overflows, the RIFF size is data size + 36, the data size is exactly the number of bytes after the header, and every fmt field reads back unchanged |
| WaveFormat.ChannelBytesAt | script.js:140-144 | a channel's bytes are two per frame, and frame j occupies bytes 2j and 2j + 1 |
| WaveFormat.DataBytesLength | script.js:138-145 | the sample data of n channels of `length` frames is 2 * n * length bytes |
| WaveFormat.DataBytesAt | script.js:138-145 | sample j of channel i occupies data bytes 2(i * length + j) and the next one |
| WaveFormat.SampleRoundTrip | script.js:138-145 | reading the int16 at offset 44 + 2(i * length + j) of the stream gives the code of the clamped, scaled sample j of channel i, within [-32767, 32767] |
| WaveFormat.ChannelMajorOrder | script.js:138-145 | consecutive frames of a channel are adjacent, a channel starts right after the previous one ends, and frame j of channel i + 1 does not follow frame j of channel i |
| WaveFormat.SampleOffsetsOrdered | script.js:138-145 | sample offsets increase in (channel, frame) order, so no two samples overlap |
| WaveFormat.StereoExample | script.js:104-148 | a 10-frame stereo buffer at 44100 Hz gives 84 bytes, with 76 at bytes 4-7, 2 at bytes 22-23, and the whole header as expected |
| WaveEncoder.SetUint8 | script.js:111 | `setUint8` stores the low 8 bits at the offset and changes nothing else |
| WaveEncoder.SetUint16 | script.js:122-133 | `setUint16` stores the little-endian value modulo 2^16 and changes nothing else |
| WaveEncoder.SetInt16 | script.js:142 | `setInt16` stores ToInt16 of the value, little-endian, and changes nothing else |
| WaveEncoder.SetUint32 | script.js:116-136 | `setUint32` stores the little-endian value modulo 2^32 and changes nothing else |
| WaveEncoder.WriteString | script.js:109-113 | `writeString` stores one byte per character code and advances the offset by the string's length, leaving the rest of the array alone |
| WaveEncoder.WriteHeader | script.js:115-136 | the header writes fill bytes 0-43 with exactly the header bytes, leave every byte from 44 on unchanged, and leave the offset at 44 |
| WaveEncoder.WriteSample | script.js:141-143 | one pass of the inner loop: the clamped, scaled sample stored with `setInt16` leaves exactly that sample's two bytes at the offset and changes nothing else |
| WaveEncoder.WriteChannel | script.js:139-144 | the inner loop writes a channel's stored codes at the offset, two bytes per frame, and changes nothing else |
| WaveEncoder.WriteSamples | script.js:138-145 | the outer loop fills everything after byte 44 with the channel-major sample data, keeps the header, and ends at the array's length |
| WaveEncoder.BufferToWave | script.js:104-148 | the result is a new array of 44 + length * numberOfChannels * 2 bytes that holds exactly the header and then the channel-major samples |
| Upload.StartsWith | script.js:15 | `startsWith` holds exactly when the prefix is no longer than the string and equals its first characters |
| Upload.HandleFileUpload | script.js:13-23 | the first selected file is read exactly when there is one and its type begins with `audio/`; otherwise nothing happens |
| Upload.GateIgnoresName | script.js:14-15 | only the first file's type matters: two first files with the same type are treated alike |
| Upload.GateExamples | script.js:15 | `audio/wav` and `audio/mpeg` pass; `video/mp4`, `audio`, `Audio/wav` and an empty selection do not |

## Left out

- DOM lookups, event listeners, the slider, its label and the buttons (script.js:1-11, 36-37, 62-71, 96-99): user interface, with no logic to verify.
- FileReader, Blob, object URLs and the download link (script.js:16-21, 32-33, 92-99): browser I/O. `Upload.HandleFileUpload` returns the decision to read and does not perform the read.
- `decodeAudioData`, the live gain graph and `OfflineAudioContext` rendering (script.js:25-59, 73-89): calls into the Web Audio platform. The gain is applied inside the platform, so the repository has no gain arithmetic to model. The model starts from the rendered `AudioBuffer`.
- `volumeSlider.value / 1000` (script.js:65): a floating-point division whose result is passed to the platform.
- IEEE-754 samples that are not finite. For finite samples the real-number model computes exactly what the code computes. A Float32 sample has a 24-bit significand, so its product with 0x7fff (15 bits) is exact in double precision, and `Math.min`/`Math.max` are exact too. The cases left out are NaN, which ToInt16 stores as 0, and plus or minus infinity, which the clamp sends to plus or minus 32767.
- A non-integer `sampleRate`: the model's sample rate is a natural number. In the Web Audio API a buffer's `sampleRate` is a `float`; it is integral here only because script.js:75 creates the `OfflineAudioContext` with `audioContext.sampleRate`, and the default `AudioContext` created at script.js:27 runs at the output device's rate, which is a whole number of hertz in practice. What the model therefore does not show: with a fractional rate, `setUint32` at script.js:126 and 128 would truncate the sample rate and the byte rate `sampleRate * numOfChannels * 2` toward zero before storing them.
- The `RangeError` thrown when `new ArrayBuffer(length)` cannot allocate: the model always allocates.
- WaveEncoder.WriteString: one byte per Dafny character, which is a Unicode scalar value. JavaScript's `str.length` and `charCodeAt` count UTF-16 code units, so a character outside the Basic Multilingual Plane would take two writes there. Every string the code passes is one of the four ASCII tags, where the two agree.
- WaveEncoder.BufferToWave: the nested loops, their body and the header writes sit in `WriteHeader`, `WriteSamples`, `WriteChannel` and `WriteSample`. These are separate methods over the same array, not one method body.
