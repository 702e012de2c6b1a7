# half-slice in Dafny

half-slice is a desktop tool for cutting, compressing and downloading video.
This project models the parts of it that decide what happens, and proves what
those parts promise:

- **The size-budget compressor** (`compress_to_discord_10mb`). It checks its
  inputs, plans a total bitrate from a byte limit and the clip's length, then
  walks a fixed ladder of eight encoder settings. For each rung it runs one
  encode and judges the temporary file that encode leaves. The first file
  that fits is committed under the final name.
- **The encoder runner** (`_run_ffmpeg_with_progress`). It reads the encoder's
  `key=value` progress stream, turns time stamps into whole percentages and
  throttles what it reports. It keeps the last 80 diagnostic lines and turns
  a nonzero exit into an error.
- **The trimming window's player** (`VideoPlayer`). This covers the bitrate
  buckets of an 8 MB trim, the checks and command lines of a trim, and the
  flags the preview controls and the preview worker loop change.
- **The YouTube downloader.** This covers:
  - how a quality label becomes a height;
  - the yt-dlp command lines;
  - the recogniser for yt-dlp's progress lines;
  - the checks a click on "Download" makes;
  - the worker thread;
  - the Tk event queue through which every screen update passes.

Modules:

| module | file | what it holds |
|---|---|---|
| `Common` | common.dfy | `Option`, Python's `str` operations (`strip`, `lower`, `upper`, `replace`, `split`, `in`), `int()` and `float()` on text, `str()` of an integer, truncation |
| `Argv` | argv.dfy | command lines as words and option/value pairs, and what can be read off a flattened one |
| `Paths` | paths.dfy | `os.path.join`, `basename`, `dirname` and `splitext` on `/`-separated paths |
| `SizeBudget` | planner.dfy | budget, ladder, bitrate split, filter, encoder command, file names |
| `EncoderProgress` | encoder_progress.dfy | the progress reader, the throttle, the diagnostic tail, the exit status |
| `Compressor` | compressor.dfy | the compression job as a specification function and as the imperative ladder loop proved against it |
| `CompressorFacts` | compressor_facts.dfy | what the job promises, proved about its specification |
| `Player` | videoplayer.dfy | the trim bitrates and commands, the preview flags, the worker loop, the `VideoPlayer` class |
| `YouTubeService` | youtube_service.dfy | height rule, progress-line recogniser, yt-dlp command, `download` |
| `YouTubeTab` | youtube_tab.dfy | click checks, hook, worker, Tk queue, the `Tab` class |

Everything outside the program is a parameter:

- **The file system** is a set of existing directories plus a map from file
  path to size.
- **The encoder** is a function from attempt number to one run: its stamped
  progress lines, its diagnostic lines, how it exits, and the size of the file
  it leaves.
- **Probes** are the values they report.
- **The clock** is the reading taken as each progress line is handled.
- **yt-dlp** is the lines it prints and its exit code, or `Popen` raising.
- **`_resolve_ffmpeg_location`** is the location it found.
- **OpenCV** is whether the capture opens plus one tick per worker pass. A
  tick holds what the user did meanwhile, the frame position after the read,
  and the wall clock.
- **Foreign formatters.** Python's `str()` of a float and the `.1f` format are
  functions passed in.

Floats are reals, so `int()` of a float is explicit truncation toward zero.
Python's integers are unbounded, like Dafny's.

Where the code and its description differ, the model follows the code:

- A nonzero encoder exit raises and aborts the whole compression job. It does
  not move on to the next rung.
- The guard against overwriting the input never fires for `/`-separated
  paths (`CompressorFacts.GuardNeverFires`).

The YouTube tab's event loop is modelled in two versions (`Version`): the
code as written and a corrected one that fixes the two faults listed under
"## Findings". The `Tab` class is built with either one. A lemma about the
screen after a download says in its row which version it covers.

## Model

| member | source | states |
|---|---|---|
| SizeBudget.TargetBytes | core/services/ffmpeg_service.py:219 | the byte target lies between 0 and the limit and is the whole part of 94 % of it |
| SizeBudget.BudgetSeconds | core/services/ffmpeg_service.py:222 | the budget is spread over the clip's duration when it is at least 0.25 s, and over exactly 0.25 s for a shorter clip |
| SizeBudget.TotalBps | core/services/ffmpeg_service.py:222-223 | the total bitrate always lies in [180 000, 6 000 000]; it is the unclamped rate when that is inside, otherwise the bound it passed |
| SizeBudget.BudgetWithinTarget | core/services/ffmpeg_service.py:219-223 | unless the lower clamp lifts it, the total rate over the budget seconds needs no more bits than the target holds; within the clamp it is the largest whole rate that does not |
| SizeBudget.TotalBpsAntitone | core/services/ffmpeg_service.py:222-223 | a longer clip never gets a higher total bitrate |
| SizeBudget.LadderShape | core/services/ffmpeg_service.py:231-246 | eight rungs; heights and audio rates never rise along the ladder; only the last rung has no audio; extra filters are `fps=` filters without commas |
| SizeBudget.SourceHeight | core/services/ffmpeg_service.py:226-228 | the probed height when it is positive, 2160 when the probe gives none or a non-positive one |
| SizeBudget.ScaleHeight | core/services/ffmpeg_service.py:257 | the scale height is one of the two heights and exceeds neither |
| SizeBudget.SplitBitrate | core/services/ffmpeg_service.py:259-266 | video gets at least 100 000; outside the low-total case audio is kept and video gets at least 120 000; in the low-total case audio is cut to at most 32 000; audio is present exactly when the rung has audio |
| SizeBudget.SplitIsExact | core/services/ffmpeg_service.py:259-266 | for a total of at least 180 000 and an audio rate of at most 64 000, audio plus video is exactly the total |
| SizeBudget.VideoFilter | core/services/ffmpeg_service.py:268-271 | the filter starts with `scale=-2:` |
| SizeBudget.VideoFilterParts | core/services/ffmpeg_service.py:268-271 | split at commas, the filter is the scale with the height (read back by `int`) and then the extra filter exactly when there is a non-empty one |
| SizeBudget.AudioArgs | core/services/ffmpeg_service.py:291-294 | AAC stereo at the rung's rate when it is positive, `-an` otherwise |
| SizeBudget.CommandHead | core/services/ffmpeg_service.py:275-279 | the encoder comes first, then the input after `-i` and the filter after `-vf` |
| SizeBudget.VideoArgs | core/services/ffmpeg_service.py:280-285 | the video rate is passed as bitrate and maximum rate, and twice it as buffer size |
| SizeBudget.CommandShape | core/services/ffmpeg_service.py:275-296 | position of every planned value in the command; `-an` stands exactly where audio options would when there is no audio; the temporary file is last |
| SizeBudget.CommandRates | core/services/ffmpeg_service.py:283-292 | the rates in the command read back with `int` as the planned ones |
| SizeBudget.StatusText | core/services/ffmpeg_service.py:253 | each attempt is announced as "Intento …" |
| SizeBudget.StatusTextInjective | core/services/ffmpeg_service.py:253 | different attempts are announced differently |
| SizeBudget.NamesExtendBase | core/services/ffmpeg_service.py:212-273 | the final and temporary names extend the base with a suffix that has no `/` |
| SizeBudget.TmpIsNotFinal | core/services/ffmpeg_service.py:273 | no temporary name is the final name |
| SizeBudget.TmpNamesDistinct | core/services/ffmpeg_service.py:273 | different attempts use different temporary names |
| Paths.Basename | core/services/ffmpeg_service.py:211 | the base name is the whole last component: the end of the path, free of `/`, and preceded by a `/` unless it is the whole path |
| Paths.Dirname | core/services/ffmpeg_service.py:207 | the directory name is the path before its last component; that part is kept as is when empty or all slashes, and otherwise loses exactly its trailing slashes |
| Paths.Join | core/services/ffmpeg_service.py:212 | a relative name is appended after the directory and one `/`; an absolute name replaces the directory |
| Paths.SplitExt | core/services/ffmpeg_service.py:211 | root and extension make up the name; a non-empty extension runs from the last dot and its root holds a non-dot; the extension is empty only when the name has no dot or only dots before its last one |
| Paths.BasenameOfJoin | core/services/ffmpeg_service.py:212 | a name without `/` is the base name of the path it is joined into |
| Paths.JoinInjective | core/services/ffmpeg_service.py:273 | one directory joined with two different relative names gives two different paths |
| Compressor.BaseOf | core/services/ffmpeg_service.py:211 | the base name of the input has no `/` |
| Compressor.Prepare | core/services/ffmpeg_service.py:202-216 | the job is refused exactly when the duration probe fails or gives a non-positive duration, the output directory is not a directory, or the final path is the input; each refusal names the first check that fails, in the code's order; the plan carries the input, the limit, the duration and the source height |
| Compressor.Check | core/services/ffmpeg_service.py:201-216 | the checks before the first attempt compute `Prepare` |
| Compressor.PlanAttempt | core/services/ffmpeg_service.py:250-273 | attempt k is announced as k + 1, is scaled to at most the source and the rung height, splits the total for the rung's audio, and writes temporary file k + 1 |
| Compressor.PlanRung | core/services/ffmpeg_service.py:257-273 | the method computes `PlanAttempt` |
| Compressor.BuildCommand | core/services/ffmpeg_service.py:275-296 | the method builds the command argument by argument as `Argv` states it |
| Compressor.Judge | core/services/ffmpeg_service.py:298-311 | an encoder error exactly when the run did not exit with 0; no output exactly when it exited cleanly with no file; fits exactly when the file has between 50 000 bytes and the limit |
| Compressor.Settle | core/services/ffmpeg_service.py:300-327 | a fitting file replaces the final file; a too small or too large one is removed; otherwise nothing changes |
| Compressor.JudgeOutput | core/services/ffmpeg_service.py:300-327 | the method computes `Judge` and `Settle` |
| Compressor.Trials | core/services/ffmpeg_service.py:231-250 | one trial per rung, in ladder order |
| Compressor.RunRung | core/services/ffmpeg_service.py:251-327 | one attempt: its announcement, the encoder run for its number, the reports of that run, its verdict, and the files after it |
| Compressor.LadderStep | core/services/ffmpeg_service.py:250-327 | one pass of the loop is trial k and its commit |
| Compressor.RunLadder | core/services/ffmpeg_service.py:250-329 | the loop computes `Attempts` from rung 0 |
| Compressor.Compress | core/services/ffmpeg_service.py:192-329 | the whole job computes `CompressSpec` |
| CompressorFacts.NotNamedAfterOwnBase | core/services/ffmpeg_service.py:211-212 | a path named after the input's base plus a suffix starting with `_` is never the input |
| CompressorFacts.GuardNeverFires | core/services/ffmpeg_service.py:214-216 | the overwrite guard never refuses a job |
| CompressorFacts.InputUntouched | core/services/ffmpeg_service.py:212-273 | the input is neither the final file nor any temporary file |
| CompressorFacts.PathsDistinct | core/services/ffmpeg_service.py:273 | no temporary file is the final file; different attempts write different temporary files |
| CompressorFacts.AttemptFilter | core/services/ffmpeg_service.py:257-271 | the filter's height is the attempt's scale height, which exceeds neither the source nor the rung; only the last rung drops the audio |
| CompressorFacts.CommandOfAttempt | core/services/ffmpeg_service.py:275-296 | the command carries the attempt's filter, its rates and, last, its temporary file; `-an` stands where the audio options would when it has no audio |
| CompressorFacts.StepFiles | core/services/ffmpeg_service.py:300-327 | after a judged attempt a rejected or missing temporary file is gone, a fitting one has become the final file, and one the encoder raised for is left as the encoder left it |
| CompressorFacts.DecidesIffDecisive | core/services/ffmpeg_service.py:298-321 | a run ends the ladder exactly when it raised or left a file of an acceptable size |
| CompressorFacts.AttemptsFollowLadder | core/services/ffmpeg_service.py:250 | the attempts are the trials in rung order, at least one while rungs remain |
| CompressorFacts.NothingAfterDecisive | core/services/ffmpeg_service.py:298-321 | no attempt runs after one that raised or committed |
| CompressorFacts.FailsIffNoneDecides | core/services/ffmpeg_service.py:329 | the job reports failure exactly when no attempt decides, and then every remaining rung has run |
| CompressorFacts.LastDecides | core/services/ffmpeg_service.py:319-321 | any other result comes from the last attempt's decisive verdict |
| CompressorFacts.DoneNamesFinal | core/services/ffmpeg_service.py:321-329 | every returned result names the final file, with a positive size exactly when it reports success |
| CompressorFacts.OthersUnchanged | core/services/ffmpeg_service.py:300-327 | no file other than the final one and the attempts' temporary ones changes |
| CompressorFacts.TmpFilesRemoved | core/services/ffmpeg_service.py:304-327 | unless an encoder raised, every temporary file made is gone when the job returns |
| CompressorFacts.SuccessCommitted | core/services/ffmpeg_service.py:311-321 | a successful job has committed a file of acceptable size to the final path and reports that size in MiB |
| CompressorFacts.FailureKeepsFinal | core/services/ffmpeg_service.py:329 | a failed job leaves the final path as it found it |
| CompressorFacts.TrialTmp | core/services/ffmpeg_service.py:273 | trial k writes temporary file k + 1 and is judged by its own run |
| CompressorFacts.TrialsApart | core/services/ffmpeg_service.py:273 | the temporary files of two trials are neither the final file nor the input, and differ when the trials do |
| CompressorFacts.LadderFiles | core/services/ffmpeg_service.py:250-273 | every trial of a plan writes its own numbered temporary file, judged by its own run |
| CompressorFacts.AttemptsIffChecksPass | core/services/ffmpeg_service.py:202-216 | at least one attempt runs exactly when the checks pass |
| CompressorFacts.AttemptInOrder | core/services/ffmpeg_service.py:250-298 | attempt i is rung i: announced as i + 1 of 8, with that rung's command, encoder run, progress and verdict, and a scale height within the source (2160 by default) and the rung |
| CompressorFacts.StopsAtFirstDecidingTrial | core/services/ffmpeg_service.py:298-329 | the ladder stops at the first deciding trial and fails exactly when none decides |
| CompressorFacts.StopsAtFirstDecidingRun | core/services/ffmpeg_service.py:298-329 | every run before the last exited cleanly with a missing, too small or too large file; failure exactly when no run decides, after all eight rungs |
| CompressorFacts.InputKept | core/services/ffmpeg_service.py:214-319 | the job never changes its input file |
| CompressorFacts.SuccessFits | core/services/ffmpeg_service.py:311-321 | a successful job leaves a file of 50 000 bytes to the limit at the path it reports, and reports its size in MiB |
| CompressorFacts.NoTrialTmpLeft | core/services/ffmpeg_service.py:304-327 | unless an encoder raised, no trial's temporary file survives the ladder |
| CompressorFacts.NoTmpLeft | core/services/ffmpeg_service.py:304-327 | unless an encoder raised, no temporary file of the job is left |
| EncoderProgress.Microseconds | core/services/ffmpeg_service.py:112-121 | a microsecond value is never an end marker |
| EncoderProgress.ClockReading | core/services/ffmpeg_service.py:122-127 | a clock reading is never an end marker |
| EncoderProgress.ClassifyLine | core/services/ffmpeg_service.py:110-133 | a line ends the stream exactly when, stripped, it is `progress=end` |
| EncoderProgress.ClassifyMicroseconds | core/services/ffmpeg_service.py:112-121 | `out_time_ms=` and `out_time_us=` lines are both read as microseconds |
| EncoderProgress.MicrosecondLine | core/services/ffmpeg_service.py:112-121 | `out_time_ms=n` and `out_time_us=n` read as n / 1 000 000 seconds |
| EncoderProgress.ClassifyClock | core/services/ffmpeg_service.py:122-127 | an `out_time=` line is read as a clock reading |
| EncoderProgress.ClockReadingOfColon3 | core/services/ffmpeg_service.py:124-125 | `h:m:s` in whole numbers is h·3600 + m·60 + s seconds |
| EncoderProgress.ClockLine | core/services/ffmpeg_service.py:122-127 | an `out_time=h:m:s` line reads back as that many seconds |
| EncoderProgress.Percent | core/services/ffmpeg_service.py:135 | a percentage is always in [0, 100] |
| EncoderProgress.PercentMonotone | core/services/ffmpeg_service.py:135 | a later time is never a lower percentage |
| EncoderProgress.PercentEnds | core/services/ffmpeg_service.py:135 | reaching the duration is 100 %, a time at or before 0 is 0 % |
| EncoderProgress.See | core/services/ffmpeg_service.py:107-110 | the loop sees each line, in order |
| EncoderProgress.Scan | core/services/ffmpeg_service.py:102-141 | every emitted percentage is in [0, 100], and the emissions respect the throttle (the value changes and more than 0.05 s has passed) |
| EncoderProgress.EndedOnlyAfterEnd | core/services/ffmpeg_service.py:128-131 | the read reports completion only after a `progress=end` line |
| EncoderProgress.ScanStopsAtEnd | core/services/ffmpeg_service.py:106-131 | when the first empty-or-`progress=end` line from i on is `progress=end`, the read reports completion and its result is the same as on the stream cut just after that line |
| EncoderProgress.EndStopsRead | core/services/ffmpeg_service.py:106-131 | a `progress=end` line anywhere, with no empty line or earlier end before it, ends the read with 100 as the last report, and no later line is read |
| EncoderProgress.SkippedLine | core/services/ffmpeg_service.py:112-133 | an unknown or malformed line changes nothing |
| EncoderProgress.Reports | core/services/ffmpeg_service.py:86 | the reports start with 0 |
| EncoderProgress.ReportsInRange | core/services/ffmpeg_service.py:86-141 | every report is in [0, 100] |
| EncoderProgress.EndedReportsHundred | core/services/ffmpeg_service.py:128-131 | a read that saw `progress=end` reports 100 last |
| EncoderProgress.WaitBound | core/services/ffmpeg_service.py:145 | the wait is 10 s after `progress=end`, 600 s otherwise |
| EncoderProgress.StopAt | core/services/ffmpeg_service.py:92-94 | the drain reads up to the first empty line |
| EncoderProgress.Trimmed | core/services/ffmpeg_service.py:95 | each kept line loses its trailing newlines |
| EncoderProgress.KeepLast | core/services/ffmpeg_service.py:88 | appending to a `deque(maxlen=n)` keeps the last n |
| EncoderProgress.DrainStderr | core/services/ffmpeg_service.py:88-97 | the drain keeps at most 80 lines: the last ones it read, trimmed |
| EncoderProgress.ErrorTail | core/services/ffmpeg_service.py:167 | the quoted tail is the last 2000 characters of the kept lines joined by newlines |
| EncoderProgress.Status | core/services/ffmpeg_service.py:165-168 | success exactly on exit 0; failure with the code and the tail exactly on another exit code |
| EncoderProgress.ReadProgress | core/services/ffmpeg_service.py:102-141 | the read loop's reports and end flag are those `Scan` states |
| EncoderProgress.RunWithProgress | core/services/ffmpeg_service.py:62-168 | one run: reports starting with 0 and all in [0, 100], and success exactly on exit 0 |
| Player.ClipSeconds | core/videoplayer.py:250 | the duration used is at least 0.1 s and the clip's own when longer |
| Player.AudioKbps | core/videoplayer.py:255-260 | the audio bucket is 32 up to a total of 160 kbit/s, 64 up to 260, and 96 above |
| Player.DiscordBitrates | core/videoplayer.py:245-263 | video is max(80, total − audio): at least 80, exactly 80 when the total leaves less than 80 after audio, and total − audio otherwise |
| Player.AudioMonotone | core/videoplayer.py:255-260 | a larger total never gets a smaller audio bucket |
| Player.TotalKbpsAntitone | core/videoplayer.py:250-253 | a longer clip never gets a higher total |
| Player.ShortClipsClamped | core/videoplayer.py:250 | clips of at most 0.1 s all get the bitrates of a 0.1 s clip |
| Player.TotalWithinBudget | core/videoplayer.py:252-253 | the total spread over the clip fits the 97 % budget and is the largest whole rate that does |
| Player.Resolution | core/videoplayer.py:331-337 | a known key maps by the table, anything else to `1280x720` |
| Player.BufsizeKbps | core/videoplayer.py:318 | the buffer is max(2·v, 200) |
| Player.DiscordCommandSpan | core/videoplayer.py:302-327 | the 8 MB command passes the clip, the span and the scale filter, seeks before naming the input and writes the output last |
| Player.DiscordCommandRates | core/videoplayer.py:316-323 | the 8 MB command passes the video rate as target and ceiling, the buffer, and the audio rate |
| Player.PlainCommandReads | core/videoplayer.py:339-347 | the normal command passes the clip, the span, preset, bitrate, frame size and 128k audio, names the input before seeking, and writes the output last |
| Player.TrimRunsIff | core/videoplayer.py:265-289 | a trim encodes exactly when a clip is loaded, both entries are numbers, start < end ≤ clip length and a file was chosen; the segment then has positive length; the "Invalid trim times" case is exactly the bad span |
| Player.DiscordTrimSettings | core/videoplayer.py:289-327 | an 8 MB trim is encoded at its segment's buckets with a buffer of max(2·v, 200) |
| Player.PlainTrimSettings | core/videoplayer.py:328-347 | a normal trim uses the configured settings, by default `medium`, `2500k` and `1280x720` |
| Player.Stopped | core/videoplayer.py:121-132 | stopping clears both flags and keeps the capture |
| Player.Toggled | core/videoplayer.py:225-234 | a pause press flips only `paused` |
| Player.ToggleTwice | core/videoplayer.py:225-234 | two pause presses restore the controls |
| Player.StopIdempotent | core/videoplayer.py:121-132 | stopping twice is stopping once, and a pause press after a stop is undone by the next stop |
| Player.Decide | core/videoplayer.py:149-160 | a launch always has start before end |
| Player.StartControls | core/videoplayer.py:134-163 | playing afterwards exactly when launched; a launch is unpaused; a refused start stops a running preview; without a clip nothing changes |
| Player.StartIff | core/videoplayer.py:134-163 | a preview starts, unpaused and without warning, exactly when a clip is loaded and both entries are numbers with start < end |
| Player.FpsOr30 | core/videoplayer.py:102-103 | the frame rate is the reported one, or 30 when it is missing or zero; never zero |
| Player.PassOf | core/videoplayer.py:192-220 | a pass only waits exactly when playing and paused; a shown frame is at least the interval after the last one shown |
| Player.PausedReadsNothing | core/videoplayer.py:193-195 | a pass reads a frame exactly when the preview was not paused at it |
| Player.ExitCause | core/videoplayer.py:192-208 | the loop stops only because the flag cleared, the capture is gone, a read failed or the position passed the end, each holding where it stops |
| Player.ShownSpaced | core/videoplayer.py:210-218 | frames are shown at least the interval apart |
| Player.AtLeastOne | core/videoplayer.py:190 | the divisor of the interval is the frame rate when it is at least 1, and 1 otherwise |
| Player.VideoPlayer.constructor | core/videoplayer.py:14-20 | no clip, no capture, not playing, not paused, 30 fps |
| Player.VideoPlayer.StopPreview | core/videoplayer.py:121-132 | the controls are `Stopped` and nothing else changes |
| Player.VideoPlayer.TogglePause | core/videoplayer.py:225-234 | the controls are `Toggled` and nothing else changes |
| Player.VideoPlayer.ReleaseCapture | core/videoplayer.py:76-83 | the capture is gone and nothing else changes |
| Player.VideoPlayer.LoadVideo | core/videoplayer.py:87-117 | the preview is stopped; a loaded clip gets a fresh capture and `FpsOr30` of its rate; a failed load adds the warning and keeps the old clip |
| Player.VideoPlayer.StartVideoPreview | core/videoplayer.py:134-174 | the controls, warnings and started preview follow `Decide` on the two entries |
| Player.VideoPlayer.StartWith | core/videoplayer.py:149-174 | the same, once the entries are read |
| Player.VideoPlayer.PreviewWorker | core/videoplayer.py:176-223 | a capture that does not open warns and clears `playing`; otherwise the loop runs as `Run` states, and once it stops `playing` is false and the capture is gone |
| Player.VideoPlayer.WorkerLoop | core/videoplayer.py:189-220 | the loop computes `Run` |
| Player.VideoPlayer.WorkerPass | core/videoplayer.py:192-220 | one pass computes `PassOf` after the tick's action |
| Player.VideoPlayer.TrimVideo | core/videoplayer.py:265-347 | the trim computes `TrimPlan` and shows its warnings |
| Player.VideoPlayer.TrimTimes | core/videoplayer.py:271-347 | the same, once the entries are read |
| YouTubeService.HeightOfLabel | core/services/youtube_service.py:10-13 | "<n>p" and "<n>P" give n |
| YouTubeService.HeightDefault | core/services/youtube_service.py:10-15 | a label without a digit, or none, gives 720 |
| YouTubeService.PercentAtSound | core/services/youtube_service.py:108 | a number found at a position comes from a match of the pattern there, and is its captured value |
| YouTubeService.PercentAtComplete | core/services/youtube_service.py:108 | a match of the pattern at a position is found there, with its captured value |
| YouTubeService.PercentAtIff | core/services/youtube_service.py:108 | a number is found at a position exactly when the pattern matches there |
| YouTubeService.SearchIff | core/services/youtube_service.py:108 | the search from k finds a number exactly when the pattern matches at some position from k on |
| YouTubeService.SearchLeftmost | core/services/youtube_service.py:108 | the search returns the value of the leftmost match |
| YouTubeService.ProgressLineIff | core/services/youtube_service.py:107-110 | a line gives a percentage exactly when `[download]`, white space, 1 to 3 digits, an optional `.digits` and `%` appear in it |
| YouTubeService.ProgressLineLeftmost | core/services/youtube_service.py:108-112 | the percentage is the one captured by the leftmost match |
| YouTubeService.CapturedIsFloat | core/services/youtube_service.py:111-114 | `float()` accepts the captured group and reads it as the captured value, so the `except` branch is never taken |
| YouTubeService.ProgressBound | core/services/youtube_service.py:108 | a reported percentage is in [0, 1000) |
| YouTubeService.FormatAlternatives | core/services/youtube_service.py:77-80 | the selector splits into exactly three alternatives: merged MP4 no higher than the height, single MP4 no higher than the height, and `best` |
| YouTubeService.DownloadCommandCommon | core/services/youtube_service.py:54-88 | every command starts with yt-dlp, passes the ffmpeg location and `<outDir>/%(title)s.%(ext)s`, and ends with the URL |
| YouTubeService.Mp3Command | core/services/youtube_service.py:63-72 | an MP3 command extracts the audio as MP3 at quality 0 and has no `-f` or `--merge-output-format` |
| YouTubeService.Mp4Command | core/services/youtube_service.py:73-88 | any other command passes the height-bound selector and MP4 merging, and no audio options |
| YouTubeService.DownloadSucceedsIff | core/services/youtube_service.py:56-104 | success exactly when ffmpeg was found, yt-dlp started and exited with 0; without ffmpeg it raises `FileNotFoundError` whatever yt-dlp would do; the hook gets every line |
| YouTubeService.Download | core/services/youtube_service.py:44-104 | the method computes `DownloadOutcome` for the height of the quality |
| YouTubeService.RunDownload | core/services/youtube_service.py:54-104 | the same, once the height is known |
| YouTubeService.FeedHook | core/services/youtube_service.py:99-101 | the hook receives every output line in order when given, none otherwise |
| YouTubeTab.ClampPercent | core/tabs/youtube_tab.py:116-119 | the bar value is in [0, 100], and is the given value when that is inside |
| YouTubeTab.Run | core/tabs/youtube_tab.py:113-195 | a callback posts its follow-ups at the back of the queue; the worker's error-box callback adds no box as written and adds its box in the corrected version |
| YouTubeTab.Drained | core/tabs/youtube_tab.py:113-127 | the event loop empties the queue |
| YouTubeTab.RunConsistent | core/tabs/youtube_tab.py:116-127 | every callback keeps the bar in [0, 100] and the button enabled exactly when no download runs |
| YouTubeTab.DrainedConsistent | core/tabs/youtube_tab.py:116-127 | so does running the whole queue |
| YouTubeTab.FinishRuns | core/tabs/youtube_tab.py:197-206 | in the corrected version (status cleared at once), `finish` leaves "Done ✅" or "Failed", the button enabled, a full bar on success, and its message box |
| YouTubeTab.FinishLast | core/tabs/youtube_tab.py:197-208 | in the corrected version, the same when other non-`finish` callbacks are queued before it |
| YouTubeTab.StatusLostAsWritten | core/tabs/youtube_tab.py:121-127 | as written, the status line is empty once `finish` and all it posts have run |
| YouTubeTab.FinishLastAsWritten | core/tabs/youtube_tab.py:121-208 | as written, the status is empty at the end however many callbacks that post nothing were queued before `finish` |
| YouTubeTab.DrainedKeepsDialogs | core/tabs/youtube_tab.py:113-127 | status, bar and download-state updates, and all they post, show no message box |
| YouTubeTab.HookOnScreen | core/tabs/youtube_tab.py:130-141 | a progress line sets the bar (clamped) and "Downloading... x%"; any other line leaves the bar and sets the status by the first of `[ExtractAudio]`, `Merging formats` and `Destination` it contains, or leaves the status when it has none |
| YouTubeTab.HookAllNoFinish | core/tabs/youtube_tab.py:130-141 | the hook never posts a `finish` |
| YouTubeTab.HookAllQuiet | core/tabs/youtube_tab.py:130-141 | the hook's callbacks post nothing when they run, in either version |
| YouTubeTab.RepairUrl | core/tabs/youtube_tab.py:156-157 | a URL starting `tps://` then starts `https://`; any other URL is kept |
| YouTubeTab.ClickAccepted | core/tabs/youtube_tab.py:143-172 | a click starts a download exactly when none runs and the URL, an existing folder and one of the four qualities are given; the job gets the stripped folder and quality, the repaired URL, and MP3 exactly when the format reads "MP3" in any case |
| YouTubeTab.WorkerReports | core/tabs/youtube_tab.py:181-208 | in the corrected version, once everything has run, "Done ✅" exactly when `download` returned true, "Failed" otherwise; the button is enabled; success fills the bar |
| YouTubeTab.DownloadDoneIff | core/tabs/youtube_tab.py:181-208 | in the corrected version, from click to last callback, "Done ✅" exactly when ffmpeg was found and yt-dlp exited with 0 |
| YouTubeTab.WorkerReportsAsWritten | core/tabs/youtube_tab.py:121-208 | as written, the status line is empty after every download, whether `download` returned true, false or raised |
| YouTubeTab.RaisedShows | core/tabs/youtube_tab.py:188-206 | after a download that raised, the boxes shown are `finish`'s "Falló la descarga" box, preceded in the corrected version only by the error's own box |
| YouTubeTab.ErrorBoxLostAsWritten | core/tabs/youtube_tab.py:188-195 | as written, a download that raised shows only `finish`'s box; the "Missing dependency" or "Error" box never appears |
| YouTubeTab.ErrorBoxShown | core/tabs/youtube_tab.py:188-206 | corrected, the error's box comes first, titled "Missing dependency" exactly for a missing ffmpeg, then `finish`'s box |
| YouTubeTab.Tab.constructor | core/tabs/youtube_tab.py:44-71 | the folder entry shows the saved folder or `<home>/Downloads`; quality 720p, format MP4; the callbacks run as the given version |
| YouTubeTab.Tab.SaveDownloadDir | core/tabs/youtube_tab.py:90-94 | an empty folder is never saved; any other is |
| YouTubeTab.Tab.SaveOutDirFromEntry | core/tabs/youtube_tab.py:96-99 | leaving the entry saves its stripped text unless empty |
| YouTubeTab.Tab.BrowseFolder | core/tabs/youtube_tab.py:101-110 | a chosen folder fills the entry and is saved; a cancelled chooser changes nothing |
| YouTubeTab.Tab.SetStatus | core/tabs/youtube_tab.py:113-114 | posts a status update and changes nothing now |
| YouTubeTab.Tab.SetProgress | core/tabs/youtube_tab.py:116-119 | posts a bar update and changes nothing now |
| YouTubeTab.Tab.SetDownloading | core/tabs/youtube_tab.py:121-127 | posts a download-state update and changes nothing now |
| YouTubeTab.Tab.Hook | core/tabs/youtube_tab.py:130-141 | posts `HookTasks` of the line |
| YouTubeTab.Tab.Download | core/tabs/youtube_tab.py:143-179 | ignored while downloading; otherwise repairs the URL entry, then refuses with the first failing check's message or saves the folder, posts progress 0, "Preparing..." and the downloading state, and starts the job |
| YouTubeTab.Tab.Check | core/tabs/youtube_tab.py:161-179 | a refusal shows only its message box and changes nothing else; an accepted job saves the folder first |
| YouTubeTab.Tab.Worker | core/tabs/youtube_tab.py:181-208 | posts `WorkerTasks` of the download's outcome |
| YouTubeTab.Tab.Report | core/tabs/youtube_tab.py:191-208 | posts the hook's callbacks, the error-box callback if `download` raised, then `finish` |
| YouTubeTab.Tab.HookLines | core/tabs/youtube_tab.py:184-190 | posts the hook's callbacks for every line in order |
| YouTubeTab.Tab.Apply | core/tabs/youtube_tab.py:113-195 | running a callback is `Run` in the tab's version |
| YouTubeTab.Tab.Conclude | core/tabs/youtube_tab.py:197-206 | `finish` posts the end of the download and shows its message box |
| YouTubeTab.Tab.RunNext | core/tabs/youtube_tab.py:113-127 | one turn of the event loop is `Step` in the tab's version, and keeps the bar in [0, 100] and the button tied to the download flag |
| YouTubeTab.Tab.RunPending | core/tabs/youtube_tab.py:113-127 | the event loop until idle is `Drained` in the tab's version, keeping the same consistency |

## Left out

- Processes, threads, locks and sleeps. Spawning the encoder, yt-dlp and ffprobe is modelled by the values they produce. The stderr drain thread is modelled as reading the whole stream. The preview worker runs sequentially on supplied ticks. `root.after` and `_ui` marshalling become the modelled Tk queue in the YouTube tab and are dropped in the player.
- The probes `probe_duration_seconds` and `probe_resolution`: external processes and JSON; their results are inputs (a failed duration probe is `None`).
- `_resolve_ffmpeg_location` and `_resolve_base_dir` only look at the file system; their answer is an input. `os.makedirs` in `download` is left out.
- `os.path.abspath`: paths are taken as already absolute and normalised, so the overwrite guard compares them directly.
- Paths.Basename, Paths.Dirname, Paths.Join and Paths.SplitExt follow POSIX rules: the program runs on Windows, where `\` is also a separator and drive letters (`C:`) change how paths join and split; neither is modelled.
- OpenCV, moviepy and PIL: frame decoding, colour conversion and `_set_panel_image` are foreign calls; a tick says whether conversion succeeds.
- The `time=` progress loop and the success dialog with the final size in `trim_video` (core/videoplayer.py:349-385), and `_format_hms`: float parsing of encoder output and float formatting.
- Python's `str()` of a float and the `.1f` format are parameters (`show`, `show1`), not modelled digit by digit.
- `\d` in the progress pattern and `int()` accept every Unicode decimal digit; the model accepts only the ASCII digits. White space (`\s`, `strip()`, `int()`) is the full `str.isspace` set.
- `float()` is modelled for plain decimal notation only: white space around, a sign, digits with `_` separators and an optional point. Exponents (`1e1`), `inf`, `infinity` and `nan` in any case are refused by the model although Python accepts them. A real number has no infinity or NaN, and NaN's false comparisons would need a separate number type. The members below inherit the gap.
- EncoderProgress.ClockReading: an `out_time=` seconds field such as `1e1`, `inf` or `nan` is skipped by the model, while the source reads it (NaN then counts as 0 percent, infinity as 100).
- Player.Decide: a start or end entry typed as `1e1`, `inf` or `nan` gives "Invalid start or end time." in the model; the source reads the number, and a NaN start passes the start-before-end check because NaN comparisons are false.
- Player.StartIff: "both entries are numbers" means plain decimals, for the same reason as Player.Decide.
- Player.TrimRunsIff: "both entries are numbers" means plain decimals; the source also trims with `1e1`, `inf` or `nan` entries, and `nan` passes its span check.
- Player.FloatError: the message quotes the text with `'...'`; Python uses `repr()`, which differs for text holding a quote or a backslash.
- Common.Lower and Common.Upper fold only ASCII letters, where Python folds all of Unicode. The quality and format boxes are read-only lists, and `int()` ignores case, so no modelled result depends on it.
- Sounds, the mute icon, `_build`, `_downloads_display_name` and the button states of the player: user interface only. `_default_downloads_path` is the home directory passed in.
- `update_start_time`, `update_end_time` and `show_frame` in the player: slider callbacks that only display frames.
- The legacy player under tools/, the configuration store, the sound managers and the other tabs: not part of this model.
- Exceptions other than those named (a failing `os.replace`, a hook that raises, a worker exception after yt-dlp started).
- In the YouTube tab, the hook's callbacks are queued after `download` returns rather than while it runs. The order of the queue, which is all the screen depends on, is the same.
- A message box runs a nested event loop while it is open; the model runs the queued callbacks in the same order without it.
- YouTubeTab.FinishRuns: stated for the corrected version only; StatusLostAsWritten states the code as written.
- YouTubeTab.FinishLast: stated for the corrected version only; FinishLastAsWritten states the code as written (an empty status).
- YouTubeTab.WorkerReports: stated for the corrected version only; WorkerReportsAsWritten states the code as written (an empty status after every download).
- YouTubeTab.DownloadDoneIff: stated for the corrected version only; as written "Done ✅" never stays on screen (WorkerReportsAsWritten).

## Findings

| source | as written | input that shows it | evidently intended | confidence | as-written member | corrected member |
|---|---|---|---|---|---|---|
| core/tabs/youtube_tab.py:188-195 | the worker posts `lambda: messagebox.showerror(..., str(e))` from inside `except ... as e`. Python deletes `e` when the clause ends, so when Tk runs the lambda it raises `NameError` and no box appears | `_resolve_ffmpeg_location` finds nothing, so `download` raises `FileNotFoundError` | the "Missing dependency" (or "Error") box shows the error's message before `finish`'s box | likely; not executed | YouTubeTab.ErrorBoxLostAsWritten | YouTubeTab.ErrorBoxShown |
| core/tabs/youtube_tab.py:121-127 | `_set_downloading(False)` clears the status by posting `_set_status("")` to the back of Tk's queue. When `finish` runs, "Done ✅" or "Failed" is already queued ahead of it, so the status ends up empty | any finished download: the queue holding just `finish` | the status line keeps "Done ✅" or "Failed" once the download has ended | likely; not executed | YouTubeTab.StatusLostAsWritten | YouTubeTab.FinishRuns |
