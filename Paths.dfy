/**
  Path handling in whisper_script.py: the extension test and split, the
  `.wav` name `extract_audio` derives for a video, `os.path.join` of the
  media folder and an entry, and the three output file names.
*/
module Paths {
  import opened Text

  /** `filename.split('.')[-1]`: the text after the last `'.'`, or the whole
      name when there is none. */
  function Ext(name: string): string
  {
    Last(Split(name, '.'))
  }

  /** `fname[:-(len(fext) + 1)]`, with Python's slice semantics: a stop
      before the start of the string is clamped to the empty prefix. */
  function NoExt(name: string): string
  {
    var stop := |name| - (|Ext(name)| + 1);
    if stop < 0 then "" else name[..stop]
  }

  /** `s.rsplit(c, 1)`: `[s]` when `c` does not occur, otherwise the text
      before and after the last `c`. */
  function RSplitOnce(s: string, c: char): (parts: seq<string>)
    ensures 1 <= |parts| <= 2
    decreases |s|
  {
    if |s| == 0 then [s]
    else if s[|s| - 1] == c then [s[..|s| - 1], ""]
    else
      var parts := RSplitOnce(s[..|s| - 1], c);
      if |parts| == 1 then [s] else [parts[0], parts[1] + [s[|s| - 1]]]
  }

  /** `video_file.rsplit('.', 1)[0] + '.wav'` */
  function WavPath(video: string): string
  {
    RSplitOnce(video, '.')[0] + ".wav"
  }

  /** `os.path.join(folder, name)` on POSIX. */
  function PathJoin(folder: string, name: string): string
  {
    if |name| > 0 && name[0] == '/' then name
    else if |folder| == 0 || folder[|folder| - 1] == '/' then folder + name
    else folder + "/" + name
  }

  /** The three output names of `process_audiofile` for a base path. */
  function TimecodeOutput(base: string, model: string): string
  {
    base + "_timecode" + model + ".txt"
  }

  function TextOutput(base: string): string
  {
    base + ".txt"
  }

  function SrtOutput(base: string): string
  {
    base + ".srt"
  }

  // ---------------------------------------------------------------------------
  // Properties
  // ---------------------------------------------------------------------------

  /** Split and rejoin: the extension holds no `'.'`; a name without `'.'` is
      all extension and has an empty base; otherwise base, `'.'` and extension
      give back the name. */
  lemma ExtRoundTrip(name: string)
    ensures '.' !in Ext(name)
    ensures '.' !in name ==> Ext(name) == name && NoExt(name) == ""
    ensures '.' in name ==> NoExt(name) + "." + Ext(name) == name
  {
    SplitFields(name, '.');
    if '.' !in name {
      SplitNone(name, '.');
    } else {
      SplitLast(name, '.');
    }
  }

  /** The extension is what follows the last `'.'` and the base what
      precedes it. */
  lemma ExtOfDotted(base: string, ext: string)
    requires '.' !in ext
    ensures Ext(base + "." + ext) == ext
    ensures NoExt(base + "." + ext) == base
  {
    SplitLastAfter(base, '.', ext);
    var name := base + "." + ext;
    assert name[..|base|] == base;
  }

  /** `rsplit('.', 1)` cuts at the same `'.'` as `split('.')[-1]`. */
  lemma {:induction false} RSplitOnceCuts(s: string, c: char)
    ensures c !in s ==> RSplitOnce(s, c) == [s]
    ensures c in s ==> (|RSplitOnce(s, c)| == 2 && c !in RSplitOnce(s, c)[1]
      && RSplitOnce(s, c)[0] + [c] + RSplitOnce(s, c)[1] == s)
    decreases |s|
  {
    if |s| > 0 && s[|s| - 1] != c {
      var init := s[..|s| - 1];
      RSplitOnceCuts(init, c);
      assert s == init + [s[|s| - 1]];
      assert c in s <==> c in init;
    } else if |s| > 0 {
      assert s == s[..|s| - 1] + [c] + "";
    }
  }

  lemma RSplitAgreesWithExt(s: string)
    requires '.' in s
    ensures RSplitOnce(s, '.') == [NoExt(s), Ext(s)]
  {
    RSplitOnceCuts(s, '.');
    var parts := RSplitOnce(s, '.');
    ExtOfDotted(parts[0], parts[1]);
  }

  /** The extracted audio has extension `wav` and the video's own base, so
      the outputs computed from it are named after the video. */
  lemma WavPathKeepsBase(video: string)
    ensures Ext(WavPath(video)) == "wav"
    ensures '.' in video ==> NoExt(WavPath(video)) == NoExt(video)
    ensures '.' !in video ==> NoExt(WavPath(video)) == video
  {
    RSplitOnceCuts(video, '.');
    assert WavPath(video) == RSplitOnce(video, '.')[0] + "." + "wav";
    ExtOfDotted(RSplitOnce(video, '.')[0], "wav");
    if '.' in video {
      RSplitAgreesWithExt(video);
    }
  }

  /** Joining a folder keeps the entry's extension, and the base of the
      joined path is the folder joined with the entry's base: outputs land
      in the media folder. */
  lemma JoinKeepsExt(folder: string, name: string)
    requires '.' in name
    ensures Ext(PathJoin(folder, name)) == Ext(name)
    ensures NoExt(PathJoin(folder, name)) == PathJoin(folder, NoExt(name))
  {
    ExtRoundTrip(name);
    var base, ext := NoExt(name), Ext(name);
    assert name == base + "." + ext;
    assert |base| > 0 ==> base[0] == name[0];
    var prefix := if |name| > 0 && name[0] == '/' then ""
      else if |folder| == 0 || folder[|folder| - 1] == '/' then folder
      else folder + "/";
    assert PathJoin(folder, name) == (prefix + base) + "." + ext;
    ExtOfDotted(prefix + base, ext);
  }

  /** The three outputs never overwrite each other. */
  lemma OutputsDistinct(base: string, model: string)
    ensures TimecodeOutput(base, model) != TextOutput(base)
    ensures TimecodeOutput(base, model) != SrtOutput(base)
    ensures TextOutput(base) != SrtOutput(base)
  {
    var t, x, s := TimecodeOutput(base, model), TextOutput(base), SrtOutput(base);
    assert |t| > |x|;
    assert t[|t| - 3] == 't' && s[|s| - 3] == 's';
    assert x[|x| - 3] == 't';
  }
}
