/**
 * The audio adapter of src/media.rs: the file-extension gate of `decode` and
 * the four primitives that act on the shared playback sink. The sink itself is
 * an abstract record of the calls made on it, in order; what the audio library
 * does with those calls is not part of this model.
 */
module Media {
  import opened Wrappers

  /** A decoded audio stream, remembered by the file it was decoded from. */
  datatype Source = Mp3(path: string)

  /** One call made on the playback sink. */
  datatype Call = Played | Paused | Stopped | Appended(source: Source)

  const DecodeErrorPrefix: string := "Unknown file extension encountered when decoding "

  /**
   * The last piece of `filename` when it is split on '.': the longest suffix
   * without a dot. A name without any dot is its own extension, and a name
   * ending in '.' has the empty extension.
   */
  function Extension(filename: string): (ext: string)
    ensures '.' !in ext
    ensures |ext| <= |filename| && filename[|filename| - |ext|..] == ext
    ensures |ext| == |filename| || filename[|filename| - |ext| - 1] == '.'
  {
    if filename == [] then []
    else if filename[|filename| - 1] == '.' then []
    else Extension(filename[..|filename| - 1]) + [filename[|filename| - 1]]
  }

  /**
   * The extension gate of `decode`: only the exact, case-sensitive extension
   * "mp3" decodes; any other yields an error naming the file. Opening and
   * reading the file are not modelled, so a successful decode is the source
   * it would produce.
   */
  function Decode(filename: string): (r: Result<Source, string>)
    ensures r.Ok? <==> Extension(filename) == "mp3"
    ensures r.Ok? ==> r.value.path == filename
    ensures r.Err? ==> r.error == DecodeErrorPrefix + filename
  {
    match Extension(filename)
    case "mp3" => Ok(Mp3(filename))
    case _ => Err(DecodeErrorPrefix + filename)
  }

  /** Whatever precedes the last dot, the piece after it is the extension. */
  lemma {:induction false} ExtensionAfterLastDot(stem: string, ext: string)
    requires '.' !in ext
    ensures Extension(stem + "." + ext) == ext
  {
    if ext == [] {
      assert (stem + "." + ext)[|stem + "." + ext| - 1] == '.';
    } else {
      var s := stem + "." + ext;
      var init := ext[..|ext| - 1];
      assert s[..|s| - 1] == stem + "." + init;
      assert s[|s| - 1] == ext[|ext| - 1];
      ExtensionAfterLastDot(stem, init);
      assert init + [ext[|ext| - 1]] == ext;
    }
  }

  /** A name without any dot is its own extension. */
  lemma {:induction false} ExtensionWithoutDot(filename: string)
    requires '.' !in filename
    ensures Extension(filename) == filename
  {
    if filename != [] {
      var init := filename[..|filename| - 1];
      ExtensionWithoutDot(init);
      assert init + [filename[|filename| - 1]] == filename;
    }
  }

  /** Every name ending in ".mp3" decodes, to a source for that very name. */
  lemma DecodeAcceptsMp3(stem: string)
    ensures Decode(stem + ".mp3") == Ok(Mp3(stem + ".mp3"))
  {
    ExtensionAfterLastDot(stem, "mp3");
    assert stem + "." + "mp3" == stem + ".mp3";
  }

  /**
   * Any other final piece is refused with the fixed message: the check is
   * case-sensitive, and a trailing dot leaves the empty extension.
   */
  lemma DecodeRejectsOtherExtensions(stem: string, ext: string)
    requires '.' !in ext && ext != "mp3"
    ensures Decode(stem + "." + ext) == Err(DecodeErrorPrefix + stem + "." + ext)
  {
    ExtensionAfterLastDot(stem, ext);
    assert DecodeErrorPrefix + (stem + "." + ext) == DecodeErrorPrefix + stem + "." + ext;
  }

  /** A name with no dot decodes exactly when it is the bare word "mp3" itself. */
  lemma DecodeWithoutDot(filename: string)
    requires '.' !in filename
    ensures Decode(filename).Ok? <==> filename == "mp3"
  {
    ExtensionWithoutDot(filename);
  }

  /** The single, process-wide playback sink, as the sequence of calls made on it. */
  class Sink {
    var calls: seq<Call>

    constructor ()
      ensures calls == []
    {
      calls := [];
    }
  }

  /** `play`: exactly one play call on the sink. */
  method Play(sink: Sink)
    modifies sink
    ensures sink.calls == old(sink.calls) + [Played]
  {
    sink.calls := sink.calls + [Played];
  }

  /** `pause`: exactly one pause call on the sink. */
  method Pause(sink: Sink)
    modifies sink
    ensures sink.calls == old(sink.calls) + [Paused]
  {
    sink.calls := sink.calls + [Paused];
  }

  /**
   * `queue`: decodes `filename` and appends the source to the sink. A failed
   * decode is unwrapped, which aborts the process, so callers must pass a
   * name that decodes.
   */
  method Queue(sink: Sink, filename: string)
    requires Decode(filename).Ok?
    modifies sink
    ensures sink.calls == old(sink.calls) + [Appended(Mp3(filename))]
  {
    var decoded := Decode(filename);
    sink.calls := sink.calls + [Appended(decoded.value)];
  }

  /** `stop`: exactly one stop call on the sink. */
  method Stop(sink: Sink)
    modifies sink
    ensures sink.calls == old(sink.calls) + [Stopped]
  {
    sink.calls := sink.calls + [Stopped];
  }
}
