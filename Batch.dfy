/**
  The batch driver of whisper_script.py: which directory entries `main`
  processes, how each one is dispatched (a video through a temporary `.wav`
  that ffmpeg extracts, an audio file directly), what `process_audiofile`
  asks of the speech model and writes, and the order of every file-system
  effect across the whole run.

  The outside world enters as two parameters: `extractOk(video)` says
  whether the ffmpeg run for `video` succeeds, and `whisper` says what the
  speech-model library does (whether loading the model and detecting the
  language succeed, and the segment list a transcription returns). Any
  failure raises out of `main`, so the run stops at the first failing
  file.
*/
module Batch {
  import opened Wrappers
  import opened Paths
  import opened Lines
  import opened Transcript

  const AudioExts: seq<string> := ["mp3", "aac", "ogg", "wav"]
  const VideoExts: seq<string> := ["mp4", "avi", "mov", "mkv"]

  // ---------------------------------------------------------------------------
  // Selection and dispatch
  // ---------------------------------------------------------------------------

  /** `match_ext(filename, extensions)`. */
  predicate MatchExt(filename: string, exts: seq<string>)
  {
    Ext(filename) in exts
  }

  /** A name with a dot matches exactly when the text after its last dot is
      one of the extensions, compared case-sensitively. */
  lemma MatchExtDotted(base: string, ext: string, exts: seq<string>)
    requires '.' !in ext
    ensures MatchExt(base + "." + ext, exts) <==> ext in exts
  {
    ExtOfDotted(base, ext);
  }

  /** A name without a dot is its own extension. */
  lemma MatchExtDotless(name: string, exts: seq<string>)
    requires '.' !in name
    ensures MatchExt(name, exts) <==> name in exts
  {
    ExtRoundTrip(name);
  }

  /** Extensions are compared case-sensitively and only the last dot
      counts: for any base name, `.MP4` is no video, `.mkv` is one, and a
      `.txt` file is not selected. */
  lemma MatchExtExamples(base: string)
    ensures !MatchExt(base + "." + "MP4", VideoExts)
    ensures MatchExt(base + ".2" + "." + "mkv", VideoExts)
    ensures !MatchExt(base + "." + "txt", AudioExts + VideoExts)
  {
    MatchExtDotted(base, "MP4", VideoExts);
    MatchExtDotted(base + ".2", "mkv", VideoExts);
    MatchExtDotted(base, "txt", AudioExts + VideoExts);
  }

  /** The entries of the folder listing whose extension is an audio or a
      video one, in listing order. */
  function Selected(listing: seq<string>): seq<string>
  {
    if |listing| == 0 then []
    else (if MatchExt(listing[0], AudioExts + VideoExts) then [listing[0]] else [])
         + Selected(listing[1..])
  }

  /** The selected files are exactly the entries with an audio or video
      extension. */
  lemma {:induction false} SelectedMembers(listing: seq<string>)
    ensures forall f :: f in Selected(listing) <==> f in listing && MatchExt(f, AudioExts + VideoExts)
  {
    if |listing| > 0 {
      SelectedMembers(listing[1..]);
      assert listing == [listing[0]] + listing[1..];
    }
  }

  /** Selection works entry by entry, so listing order is kept. */
  lemma {:induction false} SelectedAppend(a: seq<string>, b: seq<string>)
    ensures Selected(a + b) == Selected(a) + Selected(b)
  {
    if |a| == 0 {
      assert a + b == b;
    } else {
      assert (a + b)[1..] == a[1..] + b;
      SelectedAppend(a[1..], b);
    }
  }

  /** `filename.split('.')[-1] in video_exts`: the video branch. */
  predicate IsVideo(filename: string)
  {
    MatchExt(filename, VideoExts)
  }

  /** A selected file goes down exactly one branch: the video branch when its
      extension is a video one, the audio branch when it is an audio one. */
  lemma Dispatch(filename: string)
    ensures MatchExt(filename, AudioExts + VideoExts) <==> IsVideo(filename) || MatchExt(filename, AudioExts)
    ensures !(IsVideo(filename) && MatchExt(filename, AudioExts))
  {
    var e := Ext(filename);
    assert e in AudioExts + VideoExts <==> e in AudioExts || e in VideoExts;
  }

  // ---------------------------------------------------------------------------
  // process_audiofile
  // ---------------------------------------------------------------------------

  /** The command-line arguments `main` receives. */
  datatype Config = Config(
    mediaFolder: string,
    model: string,
    sourceLanguage: string,
    targetLanguage: Option<string>,
    prompt: Option<string>,
    task: string)

  /** The argument check at the end of the script: translation needs a
      target language. */
  predicate ArgsValid(cfg: Config)
  {
    !(cfg.task == "translate" && !Truthy(cfg.targetLanguage))
  }

  /** The parameters of one `process_audiofile` call; `None` is Python's
      `None`. */
  datatype Call = Call(
    fname: string,
    model: string,
    originalFile: Option<string>,
    sourceLanguage: Option<string>,
    targetLanguage: Option<string>,
    prompt: Option<string>,
    task: string)

  /** Python truthiness of an optional string. */
  predicate Truthy(s: Option<string>)
  {
    s.Some? && s.value != ""
  }

  /** The video-branch call: the extracted `.wav`, with the video as
      `original_file` and every other argument in its place. */
  function VideoCall(cfg: Config, mediaFile: string, audioFile: string): Call
  {
    Call(audioFile, cfg.model, Some(mediaFile), Some(cfg.sourceLanguage), cfg.targetLanguage, cfg.prompt, cfg.task)
  }

  /** The audio-branch call as written: the arguments after the model are
      passed positionally one place early, so `source_language` becomes
      `original_file`, `target_language` the source language, `prompt` the
      target language, `task` the prompt, and the task keeps its default. */
  function AudioCall(cfg: Config, mediaFile: string): Call
  {
    Call(mediaFile, cfg.model, Some(cfg.sourceLanguage), cfg.targetLanguage, cfg.prompt, Some(cfg.task), "transcribe")
  }

  /** The language handed to the model: detected by the model itself when the
      source language is `'auto'`, otherwise the given value (possibly
      `None`). */
  datatype Language = DetectedByModel | Given(code: Option<string>)

  /** What `model.transcribe` is asked: the audio, the language, the prompt,
      and for translation the target language. */
  datatype Request = Request(audio: string, language: Language, prompt: Option<string>, translateTo: Option<string>)

  datatype Effect =
    | Extract(video: string, wav: string)
    | Transcribe(request: Request)
    | Write(path: string, document: Document)
    | Remove(path: string)

  /** The three files a call can write, each with the segments it is made
      from: the file holds `TimecodeDocument`, `RawText` or `SrtDocument`
      of them, which `ProcessAudiofile` computes. */
  datatype Document =
    | TimecodedTranscript(segs: seq<Segment>)
    | RawTranscript(segs: seq<Segment>)
    | Subtitles(segs: seq<Segment>)

  /** The speech-model library as the script uses it: `load(model)` says
      whether `whisper.load_model(model)` succeeds, `detect(model, audio)`
      whether loading `audio` and detecting its language succeeds, and
      `transcribe(request)` is the segment list `model.transcribe` returns,
      or `None` when it raises. */
  datatype Whisper = Whisper(
    load: string -> bool,
    detect: (string, string) -> bool,
    transcribe: Request -> Option<seq<Segment>>)

  datatype Error =
    | ExtractFailed(video: string)
    | LoadFailed(model: string)
    | DetectFailed(audio: string)
    | MissingTarget(audio: string)
    | TranscribeFailed(audio: string)

  function RequestOf(call: Call): Request
  {
    Request(
      call.fname,
      if call.sourceLanguage == Some("auto") then DetectedByModel else Given(call.sourceLanguage),
      call.prompt,
      if call.task == "translate" then call.targetLanguage else None)
  }

  /** The files written from the segments, in order: the timecoded
      transcript, the raw transcript, and the SRT file when `original_file`
      is truthy, all named after `fname_noext`. */
  function Outputs(call: Call, segs: seq<Segment>): seq<Effect>
  {
    var base := NoExt(call.fname);
    [Write(TimecodeOutput(base, call.model), TimecodedTranscript(segs)),
     Write(TextOutput(base), RawTranscript(segs))]
    + (if Truthy(call.originalFile) then [Write(SrtOutput(base), Subtitles(segs))] else [])
  }

  /** The model loads and, when the source language is `'auto'`, detects
      the language of `call.fname`. */
  predicate ModelReady(call: Call, whisper: Whisper)
  {
    whisper.load(call.model) && (call.sourceLanguage == Some("auto") ==> whisper.detect(call.model, call.fname))
  }

  /** The effects of one `process_audiofile` call, or the error it raises. */
  function AudiofileOutcome(call: Call, whisper: Whisper): Result<seq<Effect>, Error>
  {
    if !whisper.load(call.model) then Failure(LoadFailed(call.model))
    else if call.sourceLanguage == Some("auto") && !whisper.detect(call.model, call.fname) then
      Failure(DetectFailed(call.fname))
    else if call.task == "translate" && !Truthy(call.targetLanguage) then Failure(MissingTarget(call.fname))
    else match whisper.transcribe(RequestOf(call))
      case None => Failure(TranscribeFailed(call.fname))
      case Some(segs) => Success([Transcribe(RequestOf(call))] + Outputs(call, segs))
  }

  /** `process_audiofile`, step by step; `written` holds the text of each
      file it writes, in order. */
  method ProcessAudiofile(call: Call, whisper: Whisper)
    returns (r: Result<seq<Effect>, Error>, written: seq<string>)
    ensures r == AudiofileOutcome(call, whisper)
    ensures r.Success? ==>
      var segs := whisper.transcribe(RequestOf(call)).value;
      written == [TimecodeDocument(segs), RawText(segs)]
                 + (if Truthy(call.originalFile) then [SrtDocument(segs)] else [])
  {
    var fnameNoext := NoExt(call.fname);
    if !whisper.load(call.model) {
      return Failure(LoadFailed(call.model)), [];
    }
    if call.sourceLanguage == Some("auto") && !whisper.detect(call.model, call.fname) {
      return Failure(DetectFailed(call.fname)), [];
    }
    var language := if call.sourceLanguage == Some("auto") then DetectedByModel else Given(call.sourceLanguage);
    if call.task == "translate" && !Truthy(call.targetLanguage) {
      return Failure(MissingTarget(call.fname)), [];
    }
    var request := Request(call.fname, language, call.prompt,
                           if call.task == "translate" then call.targetLanguage else None);
    var result := whisper.transcribe(request);
    if result.None? {
      return Failure(TranscribeFailed(call.fname)), [];
    }
    var segs := result.value;
    assert request == RequestOf(call);
    var timecoded := WriteTimecodeFile(segs);
    var rawtext := RawText(segs);
    var outputs := [Write(TimecodeOutput(fnameNoext, call.model), TimecodedTranscript(segs)),
                    Write(TextOutput(fnameNoext), RawTranscript(segs))];
    written := [timecoded, rawtext];
    if Truthy(call.originalFile) {
      var srt := WriteSrtFile(segs);
      outputs := outputs + [Write(SrtOutput(fnameNoext), Subtitles(segs))];
      written := written + [srt];
    }
    assert outputs == Outputs(call, segs);
    r := Success([Transcribe(request)] + outputs);
  }

  /** The paths a call writes, in order. */
  function WrittenPaths(effects: seq<Effect>): seq<string>
  {
    if |effects| == 0 then []
    else (if effects[0].Write? then [effects[0].path] else []) + WrittenPaths(effects[1..])
  }

  /** A successful call asks the model once, then writes two or three
      distinct files next to `fname`: the SRT file exactly when
      `original_file` is truthy. Translation is requested exactly when the
      task is `'translate'`, and then always with a target language. */
  lemma AudiofileSuccess(call: Call, whisper: Whisper)
    requires AudiofileOutcome(call, whisper).Success?
    ensures var effects, base := AudiofileOutcome(call, whisper).value, NoExt(call.fname);
      && effects[0] == Transcribe(RequestOf(call))
      && WrittenPaths(effects)
         == [TimecodeOutput(base, call.model), TextOutput(base)]
            + (if Truthy(call.originalFile) then [SrtOutput(base)] else [])
      && (RequestOf(call).translateTo.Some? <==> call.task == "translate")
      && (call.task == "translate" ==> Truthy(RequestOf(call).translateTo))
      && TimecodeOutput(base, call.model) != TextOutput(base)
      && TimecodeOutput(base, call.model) != SrtOutput(base)
      && TextOutput(base) != SrtOutput(base)
  {
    var base := NoExt(call.fname);
    var segs := whisper.transcribe(RequestOf(call)).value;
    var w := Outputs(call, segs);
    assert ([Transcribe(RequestOf(call))] + w)[1..] == w;
    WritesOnly(w);
    var t, x := Write(TimecodeOutput(base, call.model), TimecodedTranscript(segs)), Write(TextOutput(base), RawTranscript(segs));
    if Truthy(call.originalFile) {
      var s := Write(SrtOutput(base), Subtitles(segs));
      assert w == [t, x, s];
    } else {
      assert w == [t, x];
    }
    OutputsDistinct(base, call.model);
  }

  /** The error cases, in the order the script meets them: loading the
      model, then detecting the language (only for `'auto'`), then the check
      that a translation has a target, then the transcription itself; each
      raises before anything is written. */
  lemma AudiofileFailure(call: Call, whisper: Whisper)
    ensures AudiofileOutcome(call, whisper) == Failure(LoadFailed(call.model))
            <==> !whisper.load(call.model)
    ensures AudiofileOutcome(call, whisper) == Failure(DetectFailed(call.fname))
            <==> whisper.load(call.model) && call.sourceLanguage == Some("auto")
                 && !whisper.detect(call.model, call.fname)
    ensures AudiofileOutcome(call, whisper) == Failure(MissingTarget(call.fname))
            <==> ModelReady(call, whisper) && call.task == "translate" && !Truthy(call.targetLanguage)
    ensures AudiofileOutcome(call, whisper) == Failure(TranscribeFailed(call.fname))
            <==> ModelReady(call, whisper) && !(call.task == "translate" && !Truthy(call.targetLanguage))
                 && whisper.transcribe(RequestOf(call)).None?
    ensures AudiofileOutcome(call, whisper).Failure?
            <==> !ModelReady(call, whisper) || (call.task == "translate" && !Truthy(call.targetLanguage))
                 || whisper.transcribe(RequestOf(call)).None?
  {
  }

  // ---------------------------------------------------------------------------
  // main
  // ---------------------------------------------------------------------------

  /** The effects of a run and the error that stopped it, if any. */
  datatype Run = Run(effects: seq<Effect>, error: Option<Error>)

  /** One iteration of `main`'s loop over the selected files. */
  function FileRun(cfg: Config, filename: string, extractOk: string -> bool,
                   whisper: Whisper): Run
  {
    var mediaFile := PathJoin(cfg.mediaFolder, filename);
    if IsVideo(filename) then
      var audioFile := WavPath(mediaFile);
      if !extractOk(mediaFile) then Run([], Some(ExtractFailed(mediaFile)))
      else match AudiofileOutcome(VideoCall(cfg, mediaFile, audioFile), whisper)
        case Failure(e) => Run([Extract(mediaFile, audioFile)], Some(e))
        case Success(w) => Run([Extract(mediaFile, audioFile)] + w + [Remove(audioFile)], None)
    else match AudiofileOutcome(AudioCall(cfg, mediaFile), whisper)
      case Failure(e) => Run([], Some(e))
      case Success(w) => Run(w, None)
  }

  /** The loop over `files`: each file's effects in order, stopping at the
      first error. */
  function BatchRun(cfg: Config, files: seq<string>, extractOk: string -> bool,
                    whisper: Whisper): Run
  {
    if |files| == 0 then Run([], None)
    else
      var first := FileRun(cfg, files[0], extractOk, whisper);
      if first.error.Some? then first
      else
        var rest := BatchRun(cfg, files[1..], extractOk, whisper);
        Run(first.effects + rest.effects, rest.error)
  }

  /** The body of `main`'s loop for one selected file. */
  method ProcessFile(cfg: Config, filename: string, extractOk: string -> bool,
                     whisper: Whisper) returns (effects: seq<Effect>, error: Option<Error>)
    ensures Run(effects, error) == FileRun(cfg, filename, extractOk, whisper)
  {
    var mediaFile := PathJoin(cfg.mediaFolder, filename);
    if Ext(filename) in VideoExts {
      var audioFile := WavPath(mediaFile);
      if !extractOk(mediaFile) {
        return [], Some(ExtractFailed(mediaFile));
      }
      effects := [Extract(mediaFile, audioFile)];
      var r, _ := ProcessAudiofile(VideoCall(cfg, mediaFile, audioFile), whisper);
      if r.Failure? {
        return effects, Some(r.error);
      }
      effects := effects + r.value + [Remove(audioFile)];
      error := None;
    } else {
      var r, _ := ProcessAudiofile(AudioCall(cfg, mediaFile), whisper);
      if r.Failure? {
        return [], Some(r.error);
      }
      effects, error := r.value, None;
    }
  }

  /** Runs `step` on each file in order, stopping at the first error: the
      shape of `main`'s loop, whatever one iteration does. */
  function RunEach(files: seq<string>, step: string -> Run): Run
  {
    if |files| == 0 then Run([], None)
    else if step(files[0]).error.Some? then step(files[0])
    else Run(step(files[0]).effects + RunEach(files[1..], step).effects, RunEach(files[1..], step).error)
  }

  /** `step` gives the run of each file. Its quantifier fires only on a
      `FileRun` term already present, so the iterations are not unfolded
      all at once. */
  ghost predicate StepsAs(step: string -> Run, cfg: Config, extractOk: string -> bool,
                          whisper: Whisper)
  {
    forall f {:trigger FileRun(cfg, f, extractOk, whisper)} :: step(f) == FileRun(cfg, f, extractOk, whisper)
  }

  /** The batch run is the generic loop over the file runs. */
  lemma {:induction false} BatchRunEach(cfg: Config, files: seq<string>, extractOk: string -> bool,
                                        whisper: Whisper, step: string -> Run)
    requires StepsAs(step, cfg, extractOk, whisper)
    ensures BatchRun(cfg, files, extractOk, whisper) == RunEach(files, step)
  {
    if |files| > 0 {
      BatchRunEach(cfg, files[1..], extractOk, whisper, step);
    }
  }

  /** One turn of the loop: the run from file `i` on is that file's run,
      followed by the rest when it raised nothing. */
  lemma RunEachStep(files: seq<string>, i: nat, step: string -> Run)
    requires i < |files|
    ensures RunEach(files[i..], step)
         == if step(files[i]).error.Some? then step(files[i])
            else Run(step(files[i]).effects + RunEach(files[i + 1..], step).effects,
                     RunEach(files[i + 1..], step).error)
  {
    assert files[i..][1..] == files[i + 1..];
  }

  /** `main`: selects the entries of `listing` and processes them in order;
      the first error ends the run. */
  method ProcessFolder(cfg: Config, listing: seq<string>, extractOk: string -> bool,
                       whisper: Whisper) returns (effects: seq<Effect>, error: Option<Error>)
    ensures Run(effects, error) == BatchRun(cfg, Selected(listing), extractOk, whisper)
  {
    ghost var fileRun := f => FileRun(cfg, f, extractOk, whisper);
    assert StepsAs(fileRun, cfg, extractOk, whisper);
    ghost var step: string -> Run :| StepsAs(step, cfg, extractOk, whisper);
    BatchRunEach(cfg, Selected(listing), extractOk, whisper, step);
    effects, error := ProcessFiles(cfg, Selected(listing), extractOk, whisper, step);
  }

  /** `ProcessFile` seen through `step`, so that the loop below reasons about
      each iteration's run without unfolding it. */
  method ProcessStep(cfg: Config, filename: string, extractOk: string -> bool,
                     whisper: Whisper, ghost step: string -> Run)
    returns (effects: seq<Effect>, error: Option<Error>)
    requires StepsAs(step, cfg, extractOk, whisper)
    ensures Run(effects, error) == step(filename)
  {
    effects, error := ProcessFile(cfg, filename, extractOk, whisper);
  }

  /** `main`'s loop over the selected files, against `step`, which gives
      each file's run. */
  method ProcessFiles(cfg: Config, files: seq<string>, extractOk: string -> bool,
                      whisper: Whisper, ghost step: string -> Run)
    returns (effects: seq<Effect>, error: Option<Error>)
    requires StepsAs(step, cfg, extractOk, whisper)
    ensures Run(effects, error) == RunEach(files, step)
  {
    effects, error := [], None;
    assert files[0..] == files;
    for i := 0 to |files|
      invariant RunEach(files, step)
             == Run(effects + RunEach(files[i..], step).effects, RunEach(files[i..], step).error)
    {
      var fileEffects, fileError := ProcessStep(cfg, files[i], extractOk, whisper, step);
      RunEachStep(files, i, step);
      if fileError.Some? {
        assert effects + fileEffects + [] == effects + fileEffects;
        return effects + fileEffects, fileError;
      }
      var rest := RunEach(files[i + 1..], step);
      assert effects + (fileEffects + rest.effects) == effects + fileEffects + rest.effects;
      effects := effects + fileEffects;
    }
    assert files[|files|..] == [];
    assert effects + [] == effects;
  }

  // ---------------------------------------------------------------------------
  // Properties of a run
  // ---------------------------------------------------------------------------

  /** The `.wav` files extracted, in order. */
  function ExtractedWavs(effects: seq<Effect>): seq<string>
  {
    if |effects| == 0 then []
    else (if effects[0].Extract? then [effects[0].wav] else []) + ExtractedWavs(effects[1..])
  }

  /** The files removed, in order. */
  function RemovedPaths(effects: seq<Effect>): seq<string>
  {
    if |effects| == 0 then []
    else (if effects[0].Remove? then [effects[0].path] else []) + RemovedPaths(effects[1..])
  }

  lemma {:induction false} ExtractedWavsAppend(a: seq<Effect>, b: seq<Effect>)
    ensures ExtractedWavs(a + b) == ExtractedWavs(a) + ExtractedWavs(b)
  {
    if |a| == 0 {
      assert a + b == b;
    } else {
      assert (a + b)[1..] == a[1..] + b;
      ExtractedWavsAppend(a[1..], b);
    }
  }

  lemma {:induction false} RemovedPathsAppend(a: seq<Effect>, b: seq<Effect>)
    ensures RemovedPaths(a + b) == RemovedPaths(a) + RemovedPaths(b)
  {
    if |a| == 0 {
      assert a + b == b;
    } else {
      assert (a + b)[1..] == a[1..] + b;
      RemovedPathsAppend(a[1..], b);
    }
  }


  /** A run of writes writes its paths in order and neither extracts nor
      removes anything. */
  lemma {:induction false} WritesOnly(effects: seq<Effect>)
    requires forall k :: 0 <= k < |effects| ==> effects[k].Write?
    ensures WrittenPaths(effects) == seq(|effects|, k requires 0 <= k < |effects| => effects[k].path)
    ensures ExtractedWavs(effects) == [] && RemovedPaths(effects) == []
  {
    if |effects| > 0 {
      WritesOnly(effects[1..]);
    }
  }

  /** `process_audiofile` itself neither extracts nor removes anything. */
  lemma {:induction false} AudiofileKeepsWavs(call: Call, whisper: Whisper)
    requires AudiofileOutcome(call, whisper).Success?
    ensures ExtractedWavs(AudiofileOutcome(call, whisper).value) == []
    ensures RemovedPaths(AudiofileOutcome(call, whisper).value) == []
  {
    var segs := whisper.transcribe(RequestOf(call)).value;
    var w := Outputs(call, segs);
    assert ([Transcribe(RequestOf(call))] + w)[1..] == w;
    WritesOnly(w);
  }

  /** A file processed without error removes every `.wav` it extracted. */
  lemma FileRunCleansUp(cfg: Config, filename: string, extractOk: string -> bool,
                        whisper: Whisper)
    requires FileRun(cfg, filename, extractOk, whisper).error.None?
    ensures var effects := FileRun(cfg, filename, extractOk, whisper).effects;
      ExtractedWavs(effects) == RemovedPaths(effects)
  {
    var mediaFile := PathJoin(cfg.mediaFolder, filename);
    if IsVideo(filename) {
      var audioFile := WavPath(mediaFile);
      var call := VideoCall(cfg, mediaFile, audioFile);
      AudiofileKeepsWavs(call, whisper);
      var w := AudiofileOutcome(call, whisper).value;
      ExtractedWavsAppend([Extract(mediaFile, audioFile)], w);
      ExtractedWavsAppend([Extract(mediaFile, audioFile)] + w, [Remove(audioFile)]);
      RemovedPathsAppend([Extract(mediaFile, audioFile)], w);
      RemovedPathsAppend([Extract(mediaFile, audioFile)] + w, [Remove(audioFile)]);
      assert ExtractedWavs([Remove(audioFile)]) == [] && RemovedPaths([Remove(audioFile)]) == [audioFile];
      assert ExtractedWavs([Extract(mediaFile, audioFile)]) == [audioFile];
      assert RemovedPaths([Extract(mediaFile, audioFile)]) == [];
    } else {
      AudiofileKeepsWavs(AudioCall(cfg, mediaFile), whisper);
    }
  }

  /** A run that ends without error removes every extracted `.wav`, in the
      order they were extracted. */
  lemma {:induction false} CleanupOnSuccess(cfg: Config, files: seq<string>, extractOk: string -> bool,
                                            whisper: Whisper)
    ensures var r := BatchRun(cfg, files, extractOk, whisper);
      r.error.None? ==> ExtractedWavs(r.effects) == RemovedPaths(r.effects)
  {
    if |files| > 0 && BatchRun(cfg, files, extractOk, whisper).error.None? {
      var first := FileRun(cfg, files[0], extractOk, whisper);
      var rest := BatchRun(cfg, files[1..], extractOk, whisper);
      CleanupOnSuccess(cfg, files[1..], extractOk, whisper);
      FileRunCleansUp(cfg, files[0], extractOk, whisper);
      ExtractedWavsAppend(first.effects, rest.effects);
      RemovedPathsAppend(first.effects, rest.effects);
    }
  }

  /** The cleanup is on the success path only: when the model call for a
      video fails after ffmpeg has run, the extracted `.wav` is left behind
      and the run stops there. */
  lemma VideoFailureLeavesWav(cfg: Config, filename: string, extractOk: string -> bool,
                              whisper: Whisper)
    requires IsVideo(filename)
    requires var mediaFile := PathJoin(cfg.mediaFolder, filename);
      && extractOk(mediaFile)
      && AudiofileOutcome(VideoCall(cfg, mediaFile, WavPath(mediaFile)), whisper).Failure?
    ensures var mediaFile := PathJoin(cfg.mediaFolder, filename);
      var r := FileRun(cfg, filename, extractOk, whisper);
      && r.error.Some?
      && ExtractedWavs(r.effects) == [WavPath(mediaFile)]
      && RemovedPaths(r.effects) == []
  {
    var mediaFile := PathJoin(cfg.mediaFolder, filename);
    var e := Extract(mediaFile, WavPath(mediaFile));
    assert ExtractedWavs([e]) == [WavPath(mediaFile)] + ExtractedWavs([]);
  }

  /** The run stops at the first failing file: the files before it run in
      full, the failing file contributes what it did before raising, and
      nothing after it happens. */
  lemma StopsAtFirstFailure(cfg: Config, files: seq<string>, i: nat,
                             extractOk: string -> bool,
                             whisper: Whisper)
    requires i < |files|
    ensures var before, failing := BatchRun(cfg, files[..i], extractOk, whisper), FileRun(cfg, files[i], extractOk, whisper);
      before.error.None? && failing.error.Some? ==>
      BatchRun(cfg, files, extractOk, whisper) == Run(before.effects + failing.effects, failing.error)
  {
    ghost var fileRun := f => FileRun(cfg, f, extractOk, whisper);
    assert StepsAs(fileRun, cfg, extractOk, whisper);
    ghost var step: string -> Run :| StepsAs(step, cfg, extractOk, whisper);
    BatchRunEach(cfg, files, extractOk, whisper, step);
    BatchRunEach(cfg, files[..i], extractOk, whisper, step);
    if RunEach(files[..i], step).error.None? && step(files[i]).error.Some? {
      RunEachStops(files, i, step);
    }
  }

  /** The generic loop stops at the first failing step. */
  lemma {:induction false} RunEachStops(files: seq<string>, i: nat, step: string -> Run)
    requires i < |files|
    requires RunEach(files[..i], step).error.None?
    requires step(files[i]).error.Some?
    ensures RunEach(files, step)
         == Run(RunEach(files[..i], step).effects + step(files[i]).effects, step(files[i]).error)
  {
    if i == 0 {
      assert RunEach(files[..0], step).effects == [];
      assert [] + step(files[0]).effects == step(files[0]).effects;
    } else {
      assert files[..i][1..] == files[1..][..i - 1];
      assert files[..i][0] == files[0];
      assert files[1..][i - 1] == files[i];
      RunEachStops(files[1..], i - 1, step);
    }
  }


  /** An audio file, as the call is written: the task is always
      transcription (no translation, so no missing-target error), detection
      runs when the target language argument is `'auto'`, the model is asked
      with the target language as its language and the task name as its
      prompt, and the SRT file is written exactly when the source language
      argument is non-empty. */
  lemma AudioBranchAsWritten(cfg: Config, filename: string, extractOk: string -> bool,
                             whisper: Whisper)
    requires !IsVideo(filename)
    ensures var mediaFile := PathJoin(cfg.mediaFolder, filename);
      var request := Request(mediaFile,
                             if cfg.targetLanguage == Some("auto") then DetectedByModel else Given(cfg.targetLanguage),
                             Some(cfg.task), None);
      var base := NoExt(mediaFile);
      FileRun(cfg, filename, extractOk, whisper)
      == if !whisper.load(cfg.model) then Run([], Some(LoadFailed(cfg.model)))
         else if cfg.targetLanguage == Some("auto") && !whisper.detect(cfg.model, mediaFile) then
           Run([], Some(DetectFailed(mediaFile)))
         else match whisper.transcribe(request)
         case None => Run([], Some(TranscribeFailed(mediaFile)))
         case Some(segs) =>
           Run([Transcribe(request),
                Write(TimecodeOutput(base, cfg.model), TimecodedTranscript(segs)),
                Write(TextOutput(base), RawTranscript(segs))]
               + (if cfg.sourceLanguage != "" then [Write(SrtOutput(base), Subtitles(segs))] else []),
               None)
  {
  }

  /** The `.wav` extracted from a video with an extension in the media
      folder has the same base as the video, in that folder. */
  lemma VideoWavBase(folder: string, filename: string)
    requires '.' in filename
    ensures NoExt(WavPath(PathJoin(folder, filename))) == PathJoin(folder, NoExt(filename))
  {
    var mediaFile := PathJoin(folder, filename);
    JoinKeepsExt(folder, filename);
    ExtRoundTrip(mediaFile);
    assert '.' in mediaFile by {
      ExtRoundTrip(filename);
      assert Ext(mediaFile) == Ext(filename);
    }
    WavPathKeepsBase(mediaFile);
  }

  /** A video whose name has an extension, processed successfully with valid
      arguments: ffmpeg writes the `.wav` next to the video, the model is
      asked about that `.wav`, the three outputs (the SRT file always) are
      named after the video's own base in the media folder, and the `.wav`
      is removed last. */
  lemma VideoBranchOutputs(cfg: Config, filename: string, extractOk: string -> bool,
                           whisper: Whisper)
    requires IsVideo(filename) && '.' in filename && ArgsValid(cfg)
    requires var mediaFile := PathJoin(cfg.mediaFolder, filename);
      && extractOk(mediaFile)
      && whisper.load(cfg.model)
      && (cfg.sourceLanguage == "auto" ==> whisper.detect(cfg.model, WavPath(mediaFile)))
      && whisper.transcribe(RequestOf(VideoCall(cfg, mediaFile, WavPath(mediaFile)))).Some?
    ensures var mediaFile := PathJoin(cfg.mediaFolder, filename);
      var wav := WavPath(mediaFile);
      var request := RequestOf(VideoCall(cfg, mediaFile, wav));
      var segs := whisper.transcribe(request).value;
      var base := PathJoin(cfg.mediaFolder, NoExt(filename));
      && NoExt(wav) == base
      && FileRun(cfg, filename, extractOk, whisper)
         == Run([Extract(mediaFile, wav), Transcribe(request),
                 Write(TimecodeOutput(base, cfg.model), TimecodedTranscript(segs)),
                 Write(TextOutput(base), RawTranscript(segs)),
                 Write(SrtOutput(base), Subtitles(segs)),
                 Remove(wav)],
                None)
  {
    var mediaFile := PathJoin(cfg.mediaFolder, filename);
    var wav := WavPath(mediaFile);
    var call := VideoCall(cfg, mediaFile, wav);
    var segs := whisper.transcribe(RequestOf(call)).value;
    var base := PathJoin(cfg.mediaFolder, NoExt(filename));
    VideoWavBase(cfg.mediaFolder, filename);
    assert Truthy(call.originalFile);
    assert Outputs(call, segs)
        == [Write(TimecodeOutput(base, cfg.model), TimecodedTranscript(segs)),
            Write(TextOutput(base), RawTranscript(segs)),
            Write(SrtOutput(base), Subtitles(segs))];
    assert AudiofileOutcome(call, whisper) == Success([Transcribe(RequestOf(call))] + Outputs(call, segs));
  }

  /** With arguments that pass the check, no file of the run raises the
      missing-target error. */
  lemma {:induction false} ValidArgsNoMissingTarget(cfg: Config, files: seq<string>, extractOk: string -> bool,
                                                    whisper: Whisper)
    requires ArgsValid(cfg)
    ensures !(BatchRun(cfg, files, extractOk, whisper).error.Some?
              && BatchRun(cfg, files, extractOk, whisper).error.value.MissingTarget?)
  {
    if |files| > 0 {
      ValidArgsNoMissingTarget(cfg, files[1..], extractOk, whisper);
    }
  }

  /** When ffmpeg and the speech-model library never fail and the arguments pass the check,
      every selected file is processed and every `.wav` is removed. */
  lemma {:induction false} ServicesSucceed(cfg: Config, files: seq<string>, extractOk: string -> bool,
                                           whisper: Whisper)
    requires ArgsValid(cfg)
    requires forall v :: extractOk(v)
    requires forall m :: whisper.load(m)
    requires forall m, a :: whisper.detect(m, a)
    requires forall q :: whisper.transcribe(q).Some?
    ensures BatchRun(cfg, files, extractOk, whisper).error.None?
    ensures var effects := BatchRun(cfg, files, extractOk, whisper).effects;
      ExtractedWavs(effects) == RemovedPaths(effects)
  {
    if |files| > 0 {
      ServicesSucceed(cfg, files[1..], extractOk, whisper);
    }
    CleanupOnSuccess(cfg, files, extractOk, whisper);
  }
}
