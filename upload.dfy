/**
 * The gate in `handleFileUpload`: the first selected file is read as an
 * ArrayBuffer only when its declared MIME type starts with `audio/`;
 * otherwise (no file, or any other type) nothing happens.
 */
module Upload {

  /** The parts of a selected `File` the gate looks at. */
  datatype File = File(name: string, mimeType: string)

  /** What the handler does with the selection. */
  datatype Action = Ignore | ReadAsArrayBuffer(file: File)

  const AudioPrefix: string := "audio/"

  /** `s.startsWith(prefix)`, character by character from position 0. */
  function StartsWith(s: string, prefix: string): (r: bool)
    ensures r <==> |prefix| <= |s| && s[..|prefix|] == prefix
  {
    if prefix == [] then true
    else if s == [] then false
    else s[0] == prefix[0] && StartsWith(s[1..], prefix[1..])
  }

  /** `handleFileUpload`: only the first file is considered, and only an audio type is read. */
  function HandleFileUpload(files: seq<File>): (r: Action)
    ensures r.ReadAsArrayBuffer? <==>
              |files| > 0 && |files[0].mimeType| >= 6 && files[0].mimeType[..6] == AudioPrefix
    ensures r.ReadAsArrayBuffer? ==> r.file == files[0]
  {
    if |files| > 0 && StartsWith(files[0].mimeType, AudioPrefix) then ReadAsArrayBuffer(files[0])
    else Ignore
  }

  /** The gate looks at the type alone: two files with the same type fare alike. */
  lemma GateIgnoresName(f: File, g: File, rest: seq<File>, rest': seq<File>)
    requires f.mimeType == g.mimeType
    ensures HandleFileUpload([f] + rest).ReadAsArrayBuffer? == HandleFileUpload([g] + rest').ReadAsArrayBuffer?
  {
    assert ([f] + rest)[0] == f;
    assert ([g] + rest')[0] == g;
  }

  /** Typical types: `audio/wav` and `audio/mpeg` pass; `video/mp4`, `audio` and `Audio/wav` do not. */
  lemma GateExamples()
    ensures HandleFileUpload([File("a.wav", "audio/wav")]) == ReadAsArrayBuffer(File("a.wav", "audio/wav"))
    ensures HandleFileUpload([File("a.mp3", "audio/mpeg")]).ReadAsArrayBuffer?
    ensures HandleFileUpload([File("a.mp4", "video/mp4")]) == Ignore
    ensures HandleFileUpload([File("a", "audio")]) == Ignore
    ensures HandleFileUpload([File("a.wav", "Audio/wav")]) == Ignore
    ensures HandleFileUpload([]) == Ignore
  {
    assert "audio/wav"[..6] == AudioPrefix;
    assert "audio/mpeg"[..6] == AudioPrefix;
    assert "video/mp4"[0] != AudioPrefix[0];
    assert "Audio/wav"[0] != AudioPrefix[0];
  }
}
