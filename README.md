# audio2text: a Dafny model of `whisper_script.py`

`whisper_script.py` transcribes every audio and video file in a media folder
with a Whisper speech model. Its `main` keeps the directory entries whose
text after the last dot is a known audio or video extension, and processes
them in listing order. A video is first converted to a `.wav` next to it by
ffmpeg. The `.wav` is transcribed and then deleted. An audio file is
transcribed directly. `process_audiofile` asks the model for timed
segments and writes up to three files named after the input without its
extension:

- `<base>_timecode<model>.txt`: one `[HH:MM:SS] text` line per segment;
- `<base>.txt`: the stripped segment texts joined with single spaces;
- `<base>.srt`: numbered SubRip cues, written only when `original_file` is
  truthy.

The project models that core:

- `Wrappers.dfy`: `Option` and `Result`.
- `Text.dfy`: the Python string built-ins the script relies on:
  - `str.split` and `str.join`;
  - `str.strip`, over the full set of characters Python's `str.isspace`
    accepts;
  - `re.sub(" +", " ", …)`;
  - `str(int)`, plus `zfill` and the `:02`/`:03` formats.
- `Lines.dfy`: text files written line by line, and blocks of lines numbered
  from a start index.
- `Timecode.dfy`: the bracket timecode (lines 69-73) and `format_time`
  (lines 94-99), with readers that invert them.
- `Paths.dfy`: the extension test, `fname_noext`, the `.wav` path of
  `extract_audio`, `os.path.join` for POSIX paths, and the three output
  names.
- `Transcript.dfy`: the three documents, as specification functions. The
  two file-writing loops are methods proved against them.
- `Batch.dfy`: the file selection, the video/audio dispatch,
  `process_audiofile`, and `main`'s loop.
  - Every file-system effect is recorded as a value, in order: extract,
    transcribe, write, remove.
  - ffmpeg and the speech-model library enter as parameters. `extractOk`
    says whether a conversion succeeds. `whisper` says whether loading the
    model and detecting the language succeed, and returns the segments of a
    transcription, or `None` when that call raises.
  - Any exception ends the run.

The model follows the code as written:

- The milliseconds of `format_time` are truncated (`int(...)`, line 98).
- `process_audiofile` loads the model (line 45) and detects the language
  (lines 47-54) before it checks that a translation has a target (lines
  57-59), so a load or detection failure wins over the missing target.
  `AudiofileFailure` states this order.
- The temporary `.wav` is removed only when its transcription succeeded
  (line 22 runs only when line 21 returns). `VideoFailureLeavesWav` shows the file left behind.
- In the audio branch (line 24) the arguments after the model name are
  passed one position early:
  - `source_language` lands in `original_file`, so the SRT file is written
    for audio files exactly when `--source_language` is non-empty;
  - `target_language` becomes the source language;
  - `prompt` becomes the target language;
  - the task name becomes the prompt;
  - the task stays `transcribe`.

  `AudioBranchAsWritten` states this.

## Model

| member | source | states |
|---|---|---|
| Text.Split | whisper_script.py:27 | `str.split` always yields at least one field |
| Text.SplitJoin | whisper_script.py:27 | joining the fields of `s.split(c)` with `c` gives back `s` |
| Text.SplitFields | whisper_script.py:27 | no field of `s.split(c)` contains `c` |
| Text.SplitCount | whisper_script.py:27 | there is one more field than occurrences of `c`, and a single field exactly when `c` does not occur |
| Text.SplitNone | whisper_script.py:27 | a text without `c` splits into itself |
| Text.SplitAround | whisper_script.py:27 | splitting `x + c + y` with `c` absent from `x` gives `x` followed by the fields of `y` |
| Text.SplitLastAfter | whisper_script.py:27 | the last field of `x + c + y`, with `c` absent from `y`, is `y` |
| Text.SplitLast | whisper_script.py:42-43 | when `c` occurs, the last field is shorter than `s`, and `s` is the prefix before it, then `c`, then the field |
| Text.Join | whisper_script.py:78 | `sep.join(parts)`: the empty string for no parts; JoinCons and JoinLast say how the parts and separators follow each other |
| Text.JoinCons | whisper_script.py:78 | `' '.join` of a list with a head is the head, then the separator and the rest when there is a rest |
| Text.JoinLast | whisper_script.py:78 | a join of two or more parts ends with the separator and the last part |
| Text.StripLeft | whisper_script.py:78 | the result is a suffix, everything cut off is whitespace, and it does not start with whitespace |
| Text.StripRight | whisper_script.py:78 | the result is a prefix, everything cut off is whitespace, and it does not end with whitespace |
| Text.Strip | whisper_script.py:78 | `str.strip` is no longer than its input and neither starts nor ends with whitespace |
| Text.StripIdempotent | whisper_script.py:78 | stripping twice is stripping once |
| Text.SkipSpaces | whisper_script.py:79 | drops a leading run of spaces and nothing else |
| Text.CollapseSpaces | whisper_script.py:79 | `re.sub(" +", " ", s)` has no two adjacent spaces, is no longer than `s`, is empty exactly when `s` is, and keeps the first character; CollapseRun says what it does to each run of spaces |
| Text.SkipSpacesAppend | whisper_script.py:79 | skipping the leading spaces of a text that ends in a non-space commutes with appending to it |
| Text.SkipSpacesRun | whisper_script.py:79 | a run of spaces before a text that does not start with a space is skipped entirely |
| Text.CollapseAppend | whisper_script.py:79 | the substitution works piece by piece when the first piece does not end in a space |
| Text.CollapseLeadingRun | whisper_script.py:79 | a leading run of one or more spaces becomes exactly one space |
| Text.CollapseRun | whisper_script.py:79 | every maximal run of one or more spaces, inside the text or at either end, becomes exactly one space, and the pieces around it are substituted on their own |
| Text.CollapseBetweenWords | whisper_script.py:79 | two non-space characters with any run of spaces between them become the two characters with one space between them (`"a  b"` gives `"a b"`) |
| Text.DropSpacesAppend | whisper_script.py:79 | removing spaces distributes over concatenation |
| Text.DropSpacesSkip | whisper_script.py:79 | skipping leading spaces removes only spaces |
| Text.CollapseKeepsText | whisper_script.py:79 | collapsing removes spaces only: every other character is kept, in order |
| Text.CollapseFixpoint | whisper_script.py:79 | a text without two adjacent spaces is unchanged by the substitution |
| Text.CollapseIdempotent | whisper_script.py:79 | applying the substitution twice equals applying it once |
| Text.DigitChar | whisper_script.py:73 | a digit below ten renders as a decimal digit character |
| Text.DigitValue | whisper_script.py:73 | a digit character reads as a value below ten |
| Text.Decimal | whisper_script.py:73 | `str(n)` is a non-empty string of digits without a leading zero unless it is `0` |
| Text.DecimalRoundTrip | whisper_script.py:92 | reading `str(n)` back gives `n` |
| Text.DecimalLength | whisper_script.py:73 | a number below `10^k` has at most `k` digits |
| Text.Zeros | whisper_script.py:73 | the padding is `k` zero digits, or none when `k` is not positive |
| Text.Padded | whisper_script.py:73 | `str(n).zfill(w)` and `f"{n:0w}"` are digits only and as long as the longer of `str(n)` and `w` |
| Text.ParseZeros | whisper_script.py:73 | a run of zeros reads as 0 |
| Text.ParseLeadingZeros | whisper_script.py:73 | leading zeros do not change the value read |
| Text.PaddedRoundTrip | whisper_script.py:99 | a zero-padded number reads back as the number |
| Text.PaddedExactWidth | whisper_script.py:99 | a number below `10^w` pads to exactly `w` characters |
| Lines.UnlinesAppend | whisper_script.py:67-75 | writing two runs of lines one after the other gives the two texts concatenated |
| Lines.UnlinesSnoc | whisper_script.py:75 | one more `f.write(line + "\n")` appends exactly that line and its break |
| Lines.UnlinesBlankEnded | whisper_script.py:92 | three lines and a blank one are the single write `a\nb\nc\n\n` of a cue |
| Lines.UnlinesSplit | whisper_script.py:75 | when no line has a break, splitting the file at `\n` gives the lines back, then an empty tail |
| Lines.NumberedBlocksAppend | whisper_script.py:88 | `enumerate` numbering continues across a split of the segments |
| Lines.FlattenAppend | whisper_script.py:88-92 | the lines of two runs of blocks are the two runs of lines |
| Lines.FlattenLength | whisper_script.py:92 | blocks of four lines give four lines per block |
| Lines.FlattenBlock | whisper_script.py:88-92 | block `i` occupies lines `4i` to `4i+3` |
| Lines.FlattenAvoids | whisper_script.py:92 | a character absent from every block line is absent from every file line |
| Timecode.ClockOf | whisper_script.py:70-72 | `hh`, `mm`, `ss` have minutes and seconds below 60 and add back up to the whole seconds |
| Timecode.ClockText | whisper_script.py:73 | `HH:MM:SS` of hours, minutes and seconds; ClockTextFields and ClockTextRoundTrip read it back |
| Timecode.BracketTimecode | whisper_script.py:69-73 | the bracketed timecode of a start second; BracketTimecodeRoundTrip and BracketTimecodeShape give its value and layout |
| Timecode.FormatTime | whisper_script.py:94-99 | `format_time`; FormatTimeRoundTrip, FormatTimeShape and FormatTimeChars give its value, layout and characters |
| Timecode.ClockTextChars | whisper_script.py:73 | `HH:MM:SS` holds only digits and colons |
| Timecode.ClockTextFields | whisper_script.py:73 | `HH:MM:SS` splits at `:` into three non-empty digit fields that read as the hours, minutes and seconds |
| Timecode.ClockTextRoundTrip | whisper_script.py:69-73 | reading `HH:MM:SS` back gives the whole seconds |
| Timecode.BracketTimecodeRoundTrip | whisper_script.py:69-73 | reading `[HH:MM:SS]` back gives `int(segment['start'])` |
| Timecode.BracketTimecodeShape | whisper_script.py:73 | hours take at least two digits, minutes and seconds exactly two, and below 100 hours the timecode is 10 characters |
| Timecode.FormatTimeRoundTrip | whisper_script.py:94-99 | reading `HH:MM:SS,mmm` back gives the seconds and the truncated milliseconds |
| Timecode.FormatTimeShape | whisper_script.py:99 | the milliseconds take exactly three digits, and below 100 hours the time is 12 characters |
| Timecode.FormatTimeChars | whisper_script.py:99 | an SRT time holds only digits, `:` and `,` |
| Timecode.NoNewline | whisper_script.py:73 | neither timecode contains a line break |
| Timecode.BracketExampleZero | whisper_script.py:69-73 | second 0 renders as `[00:00:00]` |
| Timecode.BracketExampleHour | whisper_script.py:69-73 | second 3661 renders as `[01:01:01]` |
| Timecode.FormatTimeExampleZero | whisper_script.py:94-99 | time 0 renders as `00:00:00,000` |
| Timecode.FormatTimeExampleMillis | whisper_script.py:94-99 | 1 s 234 ms renders as `00:00:01,234` |
| Timecode.FormatTimeExampleHalf | whisper_script.py:94-99 | 2 s 500 ms renders as `00:00:02,500` |
| Timecode.FormatTimeExampleFive | whisper_script.py:94-99 | 5 s renders as `00:00:05,000` |
| Timecode.FormatTimeExampleHour | whisper_script.py:94-99 | 3600 s renders as `01:00:00,000` |
| Paths.Ext | whisper_script.py:27 | `filename.split('.')[-1]`; ExtRoundTrip and ExtOfDotted say it is the text after the last dot, or the whole dotless name |
| Paths.NoExt | whisper_script.py:42-43 | `fname[:-(len(fext)+1)]`, with Python's clamped slice; ExtRoundTrip and ExtOfDotted give the base before the last dot, and the empty string for a dotless name |
| Paths.WavPath | whisper_script.py:30 | `video_file.rsplit('.', 1)[0] + '.wav'`; WavPathKeepsBase gives its base and suffix |
| Paths.PathJoin | whisper_script.py:18 | POSIX `os.path.join(folder, name)`; JoinKeepsExt says it keeps the name's extension and base |
| Paths.TimecodeOutput | whisper_script.py:67 | the timecode file name; OutputsDistinct separates it from the other two |
| Paths.TextOutput | whisper_script.py:81 | the raw-text file name; OutputsDistinct separates it from the other two |
| Paths.SrtOutput | whisper_script.py:86 | the SRT file name; OutputsDistinct separates it from the other two |
| Paths.RSplitOnce | whisper_script.py:30 | `rsplit('.', 1)` yields one or two parts |
| Paths.RSplitOnceCuts | whisper_script.py:30 | without a dot the name is the single part. Otherwise there are two parts, the second has no dot, and the name is first part, dot, second part |
| Paths.ExtRoundTrip | whisper_script.py:42-43 | the extension has no dot. A name without a dot is its own extension and has an empty `fname_noext`. Otherwise the base, a dot and the extension rebuild the name |
| Paths.ExtOfDotted | whisper_script.py:42-43 | `base.ext` with a dot-free `ext` has extension `ext` and base `base` |
| Paths.RSplitAgreesWithExt | whisper_script.py:30 | for a name with a dot, `rsplit('.', 1)` is `[fname_noext, fext]` |
| Paths.WavPathKeepsBase | whisper_script.py:30 | the extracted audio ends in `.wav` and has the video's base, or the whole name when it has no dot |
| Paths.JoinKeepsExt | whisper_script.py:18 | joining a name with a dot to the folder keeps its extension, and the joined base is the folder joined with the name's base |
| Paths.OutputsDistinct | whisper_script.py:67-86 | the timecode, text and SRT file names of one base are pairwise different |
| Transcript.TimecodeLine | whisper_script.py:73-75 | one timecode line; TimecodeLineReadsBack reads the start second and the text back out of it |
| Transcript.TimecodeDocument | whisper_script.py:67-75 | the timecode file; WriteTimecodeFile is proved to write it, and TimecodeDocumentLines and TimecodeDocumentAppend describe its lines |
| Transcript.TimecodeLinesAppend | whisper_script.py:68-75 | the timecode lines of two runs of segments are the two runs of lines |
| Transcript.WriteTimecodeFile | whisper_script.py:67-75 | the loop writes exactly the timecoded document: one `[HH:MM:SS] text` line per segment, in order |
| Transcript.TimecodeDocumentLines | whisper_script.py:75 | for single-line texts the file splits into the timecode lines and an empty tail |
| Transcript.TimecodeLineReadsBack | whisper_script.py:73-75 | each line is the bracket timecode reading back as the start second, a space, then the segment text unchanged |
| Transcript.TimecodeDocumentAppend | whisper_script.py:67-75 | the document of two runs of segments is the two documents concatenated |
| Transcript.RawText | whisper_script.py:78-79 | the raw transcript has no two adjacent spaces and is empty when there are no segments |
| Transcript.StrippedTexts | whisper_script.py:78 | the stripped segment texts, in order; RawTextKeepsWords and RawTextOfCleanTexts relate them to the raw transcript |
| Transcript.RawTextStable | whisper_script.py:79 | collapsing the raw transcript again changes nothing |
| Transcript.DropSpacesJoin | whisper_script.py:78 | joining with spaces adds spaces only |
| Transcript.RawTextKeepsWords | whisper_script.py:78-79 | apart from spaces, the raw transcript is the stripped segment texts in order |
| Transcript.JoinCleanWords | whisper_script.py:78 | joining non-empty texts without edge or double spaces gives such a text |
| Transcript.RawTextOfCleanTexts | whisper_script.py:78-79 | when every stripped text is non-empty without double spaces, the substitution changes nothing and the raw transcript is the plain join |
| Transcript.CueTiming | whisper_script.py:89-92 | the `start --> end` line of a cue; CueTimingReadsBack reads both times back |
| Transcript.CueLines | whisper_script.py:92 | the four lines of cue `index`; SrtLinesAt and SrtDocumentCue place them in the file |
| Transcript.SrtDocument | whisper_script.py:85-92 | the SRT file; WriteSrtFile is proved to write it, and SrtDocumentCues, SrtDocumentCue and SrtDocumentSnoc describe it |
| Transcript.SrtLinesAppend | whisper_script.py:88-92 | the cue lines of two runs of segments are those of the first, then those of the second numbered on |
| Transcript.SrtDocumentSnoc | whisper_script.py:88-92 | one more segment appends exactly the write `idx+1\nstart --> end\ntext\n\n` |
| Transcript.WriteSrtFile | whisper_script.py:85-92 | the loop writes exactly the SRT document |
| Transcript.CueLinesSingleLine | whisper_script.py:92 | a cue's lines contain no break when its text has none |
| Transcript.SrtDocumentLines | whisper_script.py:92 | for single-line texts the SRT file splits into the cue lines and an empty tail |
| Transcript.SrtLinesAt | whisper_script.py:88-92 | cue `i` occupies lines `4i` to `4i+3` and is numbered `first + i` |
| Transcript.SrtDocumentCue | whisper_script.py:88-92 | lines `4i..4i+3` of the file are cue `i+1`, and line `4i` reads as `i+1` |
| Transcript.SrtDocumentCues | whisper_script.py:85-92 | the file has `4n+1` lines ending in an empty one, and every cue is in place and numbered from 1 |
| Transcript.SplitArrow | whisper_script.py:92 | `a --> b` with space-free `a` and `b` splits at spaces into `a`, `-->`, `b` |
| Transcript.CueTimingReadsBack | whisper_script.py:89-92 | the timing line splits into start, arrow and end, and the two times read back as the segment's start and end |
| Batch.MatchExt | whisper_script.py:26-27 | `match_ext`; MatchExtDotted, MatchExtDotless and MatchExtExamples say when a name matches |
| Batch.MatchExtDotted | whisper_script.py:26-27 | `base.ext` matches exactly when `ext` is in the list, compared case-sensitively |
| Batch.MatchExtDotless | whisper_script.py:26-27 | a name without a dot matches exactly when the whole name is in the list |
| Batch.MatchExtExamples | whisper_script.py:9-10 | `.MP4` is no video, `x.2.mkv` is one, `.txt` is not selected |
| Batch.Selected | whisper_script.py:13 | the selected listing entries; SelectedMembers and SelectedAppend say which and in what order |
| Batch.SelectedMembers | whisper_script.py:13 | a listing entry is selected exactly when it has an audio or video extension |
| Batch.SelectedAppend | whisper_script.py:13 | selection goes entry by entry and keeps listing order |
| Batch.Dispatch | whisper_script.py:19-24 | a selected file goes down exactly one branch: video for a video extension, audio for an audio one |
| Batch.IsVideo | whisper_script.py:19 | the video branch test; Dispatch says a selected file takes exactly one branch |
| Batch.VideoCall | whisper_script.py:21 | the video-branch call with every argument in its place; VideoBranchOutputs gives its effects |
| Batch.AudioCall | whisper_script.py:24 | the audio-branch call with its arguments shifted one place; AudioBranchAsWritten gives its effects |
| Batch.RequestOf | whisper_script.py:57-64 | what `model.transcribe` is asked; AudiofileSuccess says translation is requested exactly for task `translate`, with a target |
| Batch.Outputs | whisper_script.py:66-92 | the files written from the segments; AudiofileSuccess and WritesOnly give their paths and order |
| Batch.ModelReady | whisper_script.py:45-54 | the model loads and, for `'auto'`, detects the language; AudiofileFailure uses it to order the errors |
| Batch.AudiofileOutcome | whisper_script.py:41-92 | the effects or the error of one `process_audiofile` call; ProcessAudiofile is proved to compute it, and AudiofileSuccess, AudiofileFailure and AudiofileKeepsWavs describe it |
| Batch.ProcessAudiofile | whisper_script.py:41-92 | raises `LoadFailed` when the model does not load, `DetectFailed` when detecting an `'auto'` language fails, `MissingTarget` for a translation without a target and `TranscribeFailed` when the transcription fails, in that order. Otherwise it asks the model once, writes the timecode and text files and, when `original_file` is truthy, the SRT file, whose texts are the three documents |
| Batch.AudiofileSuccess | whisper_script.py:57-92 | on success the first effect is the model request, then the written paths are the timecode file, the text file and the SRT file exactly when `original_file` is truthy, all distinct. Translation is requested exactly for task `translate`, with a target |
| Batch.AudiofileFailure | whisper_script.py:45-64 | each error happens exactly in its case and in the script's order: the model load, then language detection for `'auto'`, then the missing target, then the transcription |
| Batch.FileRun | whisper_script.py:17-24 | one turn of `main`'s loop; ProcessFile is proved to compute it, and VideoBranchOutputs, AudioBranchAsWritten, VideoFailureLeavesWav and FileRunCleansUp describe its branches |
| Batch.BatchRun | whisper_script.py:16-24 | `main`'s loop over the selected files; ProcessFolder is proved to compute it, and StopsAtFirstFailure and CleanupOnSuccess describe it |
| Batch.ProcessFile | whisper_script.py:17-24 | one turn of `main`'s loop has exactly the effects and error of `FileRun` |
| Batch.ProcessFolder | whisper_script.py:13-24 | `main` processes the selected entries in listing order and stops at the first error |
| Batch.ProcessFiles | whisper_script.py:16-24 | the loop over the files gives the per-file runs in order, stopping at the first error |
| Batch.BatchRunEach | whisper_script.py:16-24 | the batch run is the generic stop-at-first-error loop over the file runs |
| Batch.RunEachStep | whisper_script.py:16 | the run from file `i` on is that file's run, followed by the rest when it raised nothing |
| Batch.RunEachStops | whisper_script.py:16-24 | the generic loop stops at the first failing step, after all earlier steps |
| Batch.WritesOnly | whisper_script.py:67-92 | a run of writes writes its paths in order and neither extracts nor removes anything |
| Batch.ExtractedWavsAppend | whisper_script.py:20 | the `.wav` files extracted by two runs are those of the first, then those of the second |
| Batch.RemovedPathsAppend | whisper_script.py:22 | the files removed by two runs are those of the first, then those of the second |
| Batch.AudiofileKeepsWavs | whisper_script.py:41-92 | `process_audiofile` itself neither extracts nor removes any file |
| Batch.FileRunCleansUp | whisper_script.py:20-22 | a file processed without error removes every `.wav` it extracted |
| Batch.CleanupOnSuccess | whisper_script.py:16-22 | a run without error removes every extracted `.wav`, in extraction order |
| Batch.VideoFailureLeavesWav | whisper_script.py:20-22 | when the model fails after ffmpeg has run, the `.wav` is extracted and never removed, and the run ends with an error |
| Batch.StopsAtFirstFailure | whisper_script.py:16-24 | the files before the first failing one run in full, the failing file contributes its effects so far, and nothing after it happens |
| Batch.AudioBranchAsWritten | whisper_script.py:24 | once the model has loaded and, when the target language argument is `'auto'`, detected the language, an audio file is transcribed with the target language as its language, the task name as its prompt and no translation. The SRT file is written exactly when the source language argument is non-empty |
| Batch.VideoWavBase | whisper_script.py:18-30 | the `.wav` of a video in the media folder has the video's base, in that folder |
| Batch.VideoBranchOutputs | whisper_script.py:18-22 | a video with an extension, processed successfully (the model loads, detection succeeds when asked for, the transcription returns), gives exactly: extraction, request, the timecode, text and SRT files named after the video's base, and removal of the `.wav` |
| Batch.ValidArgsNoMissingTarget | whisper_script.py:112-113 | with arguments that pass the command-line check, no file raises the missing-target error |
| Batch.ServicesSucceed | whisper_script.py:16-24 | when ffmpeg and the speech-model library never fail and the arguments pass the check, the run completes and removes every `.wav` |

## Left out

- The speech-model library (lines 45-64) is the `whisper` parameter: whether
  `load_model` succeeds, whether loading the audio and detecting its
  language succeeds, and the segments a transcription returns. The detected
  language itself is not modelled: the request records only that the model
  detected it.
- ffmpeg (`subprocess.run` with `check=True`, line 38) is the `extractOk`
  parameter; the command line passed to it is not modelled.
- File-system and console effects are recorded as values, not performed:
  - `os.listdir` order is the `listing` parameter;
  - `open`, `write` and `os.remove` are the `Write` and `Remove` effects;
  - the `print` calls are not modelled.
  - Write failures and the UTF-8 encoding are not modelled.
- Segment times are floats in the script. The model takes them already
  split into whole seconds and truncated milliseconds, so `int(seconds)`
  and the fraction arithmetic are not modelled. Negative times are not
  modelled.
- `argparse` is left out. The model keeps only the `translate` check
  (lines 112-113), as `ArgsValid`.
- `os.path.join` is modelled for POSIX paths. Windows separators are not.
- `Transcript.RawText`: states no concrete example document. Evaluating the
  substitution on literal texts is beyond the verifier's budget, so the
  raw-text and SRT documents are described by their lemmas instead.
- `Batch.ProcessFile`: the texts returned by `ProcessAudiofile` are not
  passed up to `main`. A `Write` effect names its document, and
  `ProcessAudiofile` states the text of each document.
