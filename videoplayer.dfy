/** The video player of the trimming window (`core/videoplayer.py`): the
    bitrate buckets of the 8 MB trim, the checks and command lines of a trim,
    and the flags that the preview controls and the preview worker loop
    change. */
module Player {
  import opened Common
  import opened Argv

  // ---------------------------------------------------------------- 8 MB bitrates

  /** `max(0.1, float(duration_sec))`: the seconds the budget is spread over. */
  function ClipSeconds(duration: real): (d: real)
    ensures d >= 0.1 && d >= duration
    ensures duration >= 0.1 ==> d == duration
  {
    if 0.1 > duration then 0.1 else duration
  }

  /** `target_mb * 1024 * 1024 * 0.97`: the byte budget, 3 % under the target. */
  function BudgetBytes(targetMb: real): real
  {
    targetMb * 1024.0 * 1024.0 * 0.97
  }

  /** `int((target_bytes * 8) / duration_sec / 1000)`: the total bitrate in
      kbit/s. */
  function TotalKbps(duration: real, targetMb: real): int
  {
    Trunc(BudgetBytes(targetMb) * 8.0 / ClipSeconds(duration) / 1000.0)
  }

  /** The audio bucket: 32 kbit/s up to a total of 160, 64 up to 260, else 96. */
  function AudioKbps(total: int): (a: int)
    ensures total <= 160 ==> a == 32
    ensures 160 < total <= 260 ==> a == 64
    ensures total > 260 ==> a == 96
  {
    if total <= 160 then 32 else if total <= 260 then 64 else 96
  }

  datatype Bitrates = Bitrates(video: int, audio: int, total: int)

  /** `_calc_discord_bitrates`: the video and audio bitrates of an 8 MB trim,
      and the total they are cut from. */
  function DiscordBitrates(duration: real, targetMb: real): (b: Bitrates)
    ensures b.total == TotalKbps(duration, targetMb) && b.audio == AudioKbps(b.total)
    ensures b.video >= 80
    ensures b.video + b.audio >= b.total
    ensures b.video + b.audio == b.total <==> b.total >= b.audio + 80
    ensures b.total < b.audio + 80 ==> b.video == 80
  {
    var total := TotalKbps(duration, targetMb);
    var audio := AudioKbps(total);
    Bitrates(if 80 > total - audio then 80 else total - audio, audio, total)
  }

  /** A larger total never gets a smaller audio bucket. */
  lemma AudioMonotone(t1: int, t2: int)
    requires t1 <= t2
    ensures AudioKbps(t1) <= AudioKbps(t2)
  {
  }

  /** `(x / d) / 1000` is `x / (d * 1000)`. */
  lemma DivThousand(x: real, d: real)
    requires d > 0.0
    ensures x / d / 1000.0 == x / (d * 1000.0)
  {
    var q := x / d;
    assert q * d == x;
    assert (q / 1000.0) * (d * 1000.0) == q * d;
  }

  /** A longer clip never gets a higher total bitrate. */
  lemma TotalKbpsAntitone(d1: real, d2: real, targetMb: real)
    requires targetMb >= 0.0 && d1 <= d2
    ensures TotalKbps(d2, targetMb) <= TotalKbps(d1, targetMb)
  {
    var b := BudgetBytes(targetMb) * 8.0;
    var s1, s2 := ClipSeconds(d1), ClipSeconds(d2);
    DivThousand(b, s1);
    DivThousand(b, s2);
    DivAntitone(b, s1 * 1000.0, s2 * 1000.0);
  }

  /** Clips of at most 0.1 s all get the bitrates of a 0.1 s clip. */
  lemma ShortClipsClamped(duration: real, targetMb: real)
    requires duration <= 0.1
    ensures DiscordBitrates(duration, targetMb) == DiscordBitrates(0.1, targetMb)
  {
  }

  /** The total bitrate, spread over the clip, never asks for more bits than
      the byte budget holds, and it is the largest whole rate that does not. */
  lemma TotalWithinBudget(duration: real, targetMb: real)
    requires targetMb >= 0.0
    ensures var d := ClipSeconds(duration);
            var t := TotalKbps(duration, targetMb);
            t >= 0 && t as real * (d * 1000.0) <= BudgetBytes(targetMb) * 8.0
            && BudgetBytes(targetMb) * 8.0 < (t + 1) as real * (d * 1000.0)
  {
    var d := ClipSeconds(duration);
    var b := BudgetBytes(targetMb) * 8.0;
    DivThousand(b, d);
    FloorBracket(b, d * 1000.0);
  }

  // ---------------------------------------------------------------- trim

  /** The loaded clip: its file and its length in seconds. */
  datatype Clip = Clip(filename: string, duration: real)

  /** The configuration keys a trim reads; a missing key is `None`. */
  datatype TrimConfig = TrimConfig(discord: bool, preset: Option<string>, bitrate: Option<string>, resolution: Option<string>)

  const ResolutionMap: map<string, string> :=
    map["1080p" := "1920x1080", "720p" := "1280x720", "480p" := "854x480", "360p" := "640x360"]

  /** `resolution_map.get(configuration.get('resolution', '720p'), '1280x720')`. */
  function Resolution(key: Option<string>): (r: string)
    ensures r in {"1920x1080", "1280x720", "854x480", "640x360"}
    ensures key.Some? && key.value in ResolutionMap ==> r == ResolutionMap[key.value]
    ensures key.None? || key.value !in ResolutionMap ==> r == "1280x720"
  {
    var k := if key.Some? then key.value else "720p";
    if k in ResolutionMap then ResolutionMap[k] else "1280x720"
  }

  /** `configuration.get(key, default)` for a string setting. */
  function Setting(value: Option<string>, default: string): string
  {
    if value.Some? then value.value else default
  }

  /** `max(v_kbps * 2, 200)`: the rate-control buffer of an 8 MB trim. */
  function BufsizeKbps(video: int): (b: int)
    ensures b >= 200 && b >= 2 * video && (b == 200 || b == 2 * video)
  {
    if video * 2 >= 200 then video * 2 else 200
  }

  /** The arguments of an 8 MB trim: seek before the input, scale to 720p at
      30 fps, H.264 in yuv420p at the bucket's video rate (also the ceiling)
      with a buffer of `max(2 v, 200)`, and AAC stereo at the bucket's audio
      rate. */
  function DiscordTrimArgs(ffmpeg: string, startText: string, endText: string, input: string, b: Bitrates, output: string): seq<Arg>
    requires b.video >= 80
  {
    [Word(ffmpeg), Word("-y"), Opt("-ss", startText), Opt("-to", endText), Opt("-i", input),
     Opt("-vf", "scale=1280:-2,fps=30"),
     Opt("-c:v", "libx264"), Opt("-pix_fmt", "yuv420p"), Opt("-preset", "veryfast"),
     Opt("-b:v", NatToString(b.video) + "k"), Opt("-maxrate", NatToString(b.video) + "k"),
     Opt("-bufsize", NatToString(BufsizeKbps(b.video)) + "k"),
     Opt("-c:a", "aac"), Opt("-b:a", NatToString(if b.audio >= 0 then b.audio else 0) + "k"), Opt("-ac", "2"),
     Opt("-movflags", "+faststart"), Word(output)]
  }

  /** The arguments of a normal trim: seek after the input, with the
      configured preset, bitrate and frame size and 128k audio. */
  function PlainTrimArgs(ffmpeg: string, input: string, startText: string, endText: string,
                         preset: string, bitrate: string, resolution: string, output: string): seq<Arg>
  {
    [Word(ffmpeg), Word("-y"), Opt("-i", input), Opt("-ss", startText), Opt("-to", endText),
     Opt("-c:v", "libx264"), Opt("-preset", preset), Opt("-b:v", bitrate), Opt("-s", resolution),
     Opt("-c:a", "aac"), Opt("-b:a", "128k"), Word(output)]
  }

  /** An 8 MB trim command passes the clip, the span and the scale filter;
      it seeks before it names the input, and writes the output last. */
  lemma DiscordCommandSpan(ffmpeg: string, startText: string, endText: string, input: string, b: Bitrates, output: string)
    requires b.video >= 80
    ensures var cmd := Flatten(DiscordTrimArgs(ffmpeg, startText, endText, input, b, output));
            Passes(cmd, "-i", input) && Passes(cmd, "-ss", startText) && Passes(cmd, "-to", endText)
            && Passes(cmd, "-vf", "scale=1280:-2,fps=30") && Precedes(cmd, "-ss", "-i")
            && cmd[0] == ffmpeg && cmd[|cmd| - 1] == output
  {
    var args := DiscordTrimArgs(ffmpeg, startText, endText, input, b, output);
    FlattenPasses(args, 4);
    FlattenPasses(args, 2);
    FlattenPasses(args, 3);
    FlattenPasses(args, 5);
    FlattenPrecedes(args, 2, 4);
    FlattenLast(args, output);
  }

  /** An 8 MB trim command passes the bucket's video rate as both target and
      ceiling, a buffer of twice that but at least 200k, and the bucket's
      audio rate. */
  lemma DiscordCommandRates(ffmpeg: string, startText: string, endText: string, input: string, b: Bitrates, output: string)
    requires b.video >= 80 && b.audio >= 0
    ensures var cmd := Flatten(DiscordTrimArgs(ffmpeg, startText, endText, input, b, output));
            Passes(cmd, "-b:v", NatToString(b.video) + "k") && Passes(cmd, "-maxrate", NatToString(b.video) + "k")
            && Passes(cmd, "-bufsize", NatToString(BufsizeKbps(b.video)) + "k")
            && Passes(cmd, "-b:a", NatToString(b.audio) + "k")
  {
    var args := DiscordTrimArgs(ffmpeg, startText, endText, input, b, output);
    FlattenPasses(args, 9);
    FlattenPasses(args, 10);
    FlattenPasses(args, 11);
    FlattenPasses(args, 13);
  }

  /** A normal trim command passes the clip, the span, the preset, the
      bitrate and the frame size, with 128k audio; it names the input before
      it seeks, and writes the output last. */
  lemma PlainCommandReads(ffmpeg: string, input: string, startText: string, endText: string,
                          preset: string, bitrate: string, resolution: string, output: string)
    ensures var cmd := Flatten(PlainTrimArgs(ffmpeg, input, startText, endText, preset, bitrate, resolution, output));
            Passes(cmd, "-i", input) && Passes(cmd, "-ss", startText) && Passes(cmd, "-to", endText)
            && Passes(cmd, "-preset", preset) && Passes(cmd, "-b:v", bitrate)
            && Passes(cmd, "-s", resolution) && Passes(cmd, "-b:a", "128k")
            && Precedes(cmd, "-i", "-ss")
            && cmd[0] == ffmpeg && cmd[|cmd| - 1] == output
  {
    var args := PlainTrimArgs(ffmpeg, input, startText, endText, preset, bitrate, resolution, output);
    FlattenPasses(args, 2);
    FlattenPasses(args, 3);
    FlattenPasses(args, 4);
    FlattenPasses(args, 6);
    FlattenPasses(args, 7);
    FlattenPasses(args, 8);
    FlattenPasses(args, 10);
    FlattenPrecedes(args, 2, 3);
    FlattenLast(args, output);
  }

  /** What a trim request comes to. `Encode` carries the command line and
      the length of the segment. */
  datatype TrimOutcome = NoVideo | TrimError(message: string) | InvalidTimes | Cancelled | Encode(cmd: seq<string>, seconds: real)

  /** The message of the `ValueError` a failed `float(text)` raises. */
  function FloatError(text: string): string
  {
    "could not convert string to float: '" + text + "'"
  }

  /** `trim_video` up to the encoder run: the clip check, the two numbers,
      the span check, the save dialog (an empty answer cancels) and the
      command of the configured mode. `show` is Python's `str` on floats. */
  function TrimPlan(clip: Option<Clip>, startText: string, endText: string, outputPath: string,
                    config: TrimConfig, ffmpeg: string, show: real -> string): TrimOutcome
  {
    TrimWith(clip, startText, endText, ParsePyFloat(startText), ParsePyFloat(endText), outputPath, config, ffmpeg, show)
  }

  /** `TrimPlan` once `float` has read the two entries as `start` and `end`
      (`None` for the `ValueError`); the texts are kept for the message. */
  function TrimWith(clip: Option<Clip>, startText: string, endText: string, start: Option<real>, end: Option<real>,
                    outputPath: string, config: TrimConfig, ffmpeg: string, show: real -> string): TrimOutcome
  {
    if clip.None? then NoVideo
    else if start.None? then TrimError(FloatError(startText))
    else if end.None? then TrimError(FloatError(endText))
    else if start.value >= end.value || end.value > clip.value.duration then InvalidTimes
    else if outputPath == "" then Cancelled
    else
      var seconds := end.value - start.value;
      var input, from, to := clip.value.filename, show(start.value), show(end.value);
      if config.discord then
        Encode(Flatten(DiscordTrimArgs(ffmpeg, from, to, input, DiscordBitrates(seconds, 8.0), outputPath)), seconds)
      else
        Encode(Flatten(PlainTrimArgs(ffmpeg, input, from, to, Setting(config.preset, "medium"),
                                     Setting(config.bitrate, "2500k"), Resolution(config.resolution), outputPath)), seconds)
  }

  /** A trim runs exactly when a clip is loaded, both times are numbers,
      start comes before end, end is within the clip and a file was chosen;
      it then encodes a segment of positive length that fits in the clip. */
  lemma TrimRunsIff(clip: Option<Clip>, startText: string, endText: string, outputPath: string,
                    config: TrimConfig, ffmpeg: string, show: real -> string)
    ensures var o := TrimPlan(clip, startText, endText, outputPath, config, ffmpeg, show);
            o.Encode? <==>
              clip.Some? && ParsePyFloat(startText).Some? && ParsePyFloat(endText).Some?
              && ParsePyFloat(startText).value < ParsePyFloat(endText).value <= clip.value.duration && outputPath != ""
    ensures var o := TrimPlan(clip, startText, endText, outputPath, config, ffmpeg, show);
            o.Encode? ==> o.seconds == ParsePyFloat(endText).value - ParsePyFloat(startText).value > 0.0
    ensures var o := TrimPlan(clip, startText, endText, outputPath, config, ffmpeg, show);
            o.InvalidTimes? <==>
              clip.Some? && ParsePyFloat(startText).Some? && ParsePyFloat(endText).Some?
              && (ParsePyFloat(startText).value >= ParsePyFloat(endText).value || ParsePyFloat(endText).value > clip.value.duration)
  {
  }

  /** An 8 MB trim is encoded at the buckets of its segment with a buffer of
      `max(2 v, 200)` kbit/s. */
  lemma DiscordTrimSettings(clip: Clip, startText: string, endText: string, start: Option<real>, end: Option<real>,
                            outputPath: string, config: TrimConfig, ffmpeg: string, show: real -> string)
    requires config.discord
    requires TrimWith(Some(clip), startText, endText, start, end, outputPath, config, ffmpeg, show).Encode?
    ensures var o := TrimWith(Some(clip), startText, endText, start, end, outputPath, config, ffmpeg, show);
            var b := DiscordBitrates(o.seconds, 8.0);
            Passes(o.cmd, "-b:v", NatToString(b.video) + "k")
            && Passes(o.cmd, "-bufsize", NatToString(BufsizeKbps(b.video)) + "k")
            && Passes(o.cmd, "-b:a", NatToString(b.audio) + "k")
            && Passes(o.cmd, "-i", clip.filename) && o.cmd[|o.cmd| - 1] == outputPath
  {
    var b := DiscordBitrates(end.value - start.value, 8.0);
    DiscordCommandSpan(ffmpeg, show(start.value), show(end.value), clip.filename, b, outputPath);
    DiscordCommandRates(ffmpeg, show(start.value), show(end.value), clip.filename, b, outputPath);
  }

  /** A normal trim is encoded at the configured settings, by default the
      medium preset at 2500k and 1280x720. */
  lemma PlainTrimSettings(clip: Clip, startText: string, endText: string, start: Option<real>, end: Option<real>,
                          outputPath: string, config: TrimConfig, ffmpeg: string, show: real -> string)
    requires !config.discord
    requires TrimWith(Some(clip), startText, endText, start, end, outputPath, config, ffmpeg, show).Encode?
    ensures var o := TrimWith(Some(clip), startText, endText, start, end, outputPath, config, ffmpeg, show);
            Passes(o.cmd, "-preset", Setting(config.preset, "medium"))
            && Passes(o.cmd, "-b:v", Setting(config.bitrate, "2500k"))
            && Passes(o.cmd, "-s", Resolution(config.resolution))
            && Passes(o.cmd, "-i", clip.filename) && o.cmd[|o.cmd| - 1] == outputPath
  {
    PlainCommandReads(ffmpeg, clip.filename, show(start.value), show(end.value), Setting(config.preset, "medium"),
                      Setting(config.bitrate, "2500k"), Resolution(config.resolution), outputPath);
  }

  /** The warning a trim outcome shows, if any. */
  function TrimWarnings(o: TrimOutcome): seq<string>
  {
    match o
    case NoVideo => ["No video loaded."]
    case TrimError(m) => ["Error trimming the video: " + m]
    case InvalidTimes => ["Invalid trim times."]
    case _ => []
  }

  // ---------------------------------------------------------------- preview

  /** An OpenCV capture: the file it reads, whether it opened, and the frame
      it was last told to seek to. */
  datatype Capture = Capture(source: string, isOpen: bool, seekFrame: int)

  /** The preview thread that was started, with the span it plays. */
  datatype Preview = Preview(start: real, end: real)

  /** The state the preview controls share with the worker: the two flags,
      the text of the pause button and the capture. */
  datatype Controls = Controls(playing: bool, paused: bool, button: string, cap: Option<Capture>)

  /** `stop_preview`: both flags cleared, the button reads "Pause". */
  function Stopped(c: Controls): (r: Controls)
    ensures !r.playing && !r.paused && r.cap == c.cap
  {
    c.(playing := false, paused := false, button := "Pause")
  }

  function PauseLabel(paused: bool): string
  {
    if paused then "Resume" else "Pause"
  }

  /** `toggle_pause`: only `paused` flips, and the button names what a
      press will do next. */
  function Toggled(c: Controls): (r: Controls)
    ensures r.paused == !c.paused && r.playing == c.playing && r.cap == c.cap
  {
    c.(paused := !c.paused, button := PauseLabel(!c.paused))
  }

  /** Pausing twice gives back the flags and the capture, and the button
      text when it matched the flag. */
  lemma ToggleTwice(c: Controls)
    requires c.button == PauseLabel(c.paused)
    ensures Toggled(Toggled(c)) == c
  {
  }

  /** Stopping is idempotent and leaves nothing for a pause press to undo
      but the pause itself. */
  lemma StopIdempotent(c: Controls)
    ensures Stopped(Stopped(c)) == Stopped(c)
    ensures Stopped(Toggled(Stopped(c))) == Stopped(c)
  {
  }

  /** What `start_video_preview` decides. */
  datatype StartDecision = NoClip | BadNumbers | NotBefore | Launch(start: real, end: real)

  function Decide(hasClip: bool, start: Option<real>, end: Option<real>): (d: StartDecision)
    ensures d.Launch? ==> d.start < d.end
  {
    if !hasClip then NoClip
    else if start.None? || end.None? then BadNumbers
    else if start.value >= end.value then NotBefore
    else Launch(start.value, end.value)
  }

  /** The controls after `start_video_preview`: untouched without a clip;
      otherwise a running preview is stopped first, and only a valid span
      starts a new one, unpaused. */
  function StartControls(c: Controls, d: StartDecision): (r: Controls)
    ensures d.Launch? <==> r.playing && !d.NoClip?
    ensures d.Launch? ==> !r.paused
    ensures !d.NoClip? && !d.Launch? ==> !r.playing
    ensures d.NoClip? ==> r == c
  {
    if d.NoClip? then c
    else
      var c1 := if c.playing then Stopped(c) else c;
      if d.Launch? then c1.(playing := true, paused := false) else c1
  }

  function StartWarnings(d: StartDecision): seq<string>
  {
    match d
    case NoClip => ["No video loaded."]
    case BadNumbers => ["Invalid start or end time."]
    case NotBefore => ["Start time should be less than end time."]
    case Launch(_, _) => []
  }

  /** A preview starts exactly when a clip is loaded and both times are
      numbers with start before end; then it is playing and not paused. */
  lemma StartIff(c: Controls, hasClip: bool, startText: string, endText: string)
    ensures var d := Decide(hasClip, ParsePyFloat(startText), ParsePyFloat(endText));
            var r := StartControls(c, d);
            (r.playing && !r.paused && StartWarnings(d) == [] <==>
               hasClip && ParsePyFloat(startText).Some? && ParsePyFloat(endText).Some?
               && ParsePyFloat(startText).value < ParsePyFloat(endText).value)
  {
  }

  /** `fps or 30.0`: an unknown or zero frame rate reads as 30. */
  function FpsOr30(fps: Option<real>): (r: real)
    ensures r != 0.0
    ensures fps.Some? && fps.value != 0.0 ==> r == fps.value
    ensures fps.None? || fps.value == 0.0 ==> r == 30.0
  {
    if fps.Some? && fps.value != 0.0 then fps.value else 30.0
  }

  /** What `VideoFileClip` gives: a clip of that many seconds, or the message
      of the exception it raised. */
  datatype Loaded = Loaded(duration: real) | LoadFailed(message: string)

  // ---------------------------------------------------------------- the worker loop

  /** What another thread does between two passes of the worker loop: nothing,
      stop the preview, press pause, or release the capture. */
  datatype UiAction = Idle | StopPressed | PausePressed | Released

  /** One pass of the worker loop: what happened before it, the frame
      position after a read (`None` when the read fails), the wall clock and
      whether the colour conversion succeeds. */
  datatype Tick = Tick(action: UiAction, frame: Option<real>, now: real, converts: bool)

  /** How a pass ended: asleep while paused, a frame shown, a frame dropped
      by the throttle, or a frame whose conversion failed. */
  datatype Event = Waited | Shown(at: real) | Throttled | ConvertFailed

  /** Why the worker stopped. */
  datatype Exit = OpenFailed | StopCleared | NoCapture | ReadFailed | PastEnd

  /** The passes the loop made, why it stopped (`None`: still running when
      the ticks ran out), and the controls at that point. */
  datatype Trace = Trace(events: seq<Event>, exit: Option<Exit>, controls: Controls)

  function Act(c: Controls, a: UiAction): Controls
  {
    match a
    case Idle => c
    case StopPressed => Stopped(c)
    case PausePressed => Toggled(c)
    case Released => c.(cap := None)
  }

  /** The controls after the actions of ticks `k` to `k + n - 1`. */
  function Acted(c: Controls, ticks: seq<Tick>, k: nat, n: nat): Controls
    requires k + n <= |ticks|
    decreases n
  {
    if n == 0 then c else Act(Acted(c, ticks, k, n - 1), ticks[k + n - 1].action)
  }

  function Prepend(e: Event, t: Trace): Trace
  {
    Trace([e] + t.events, t.exit, t.controls)
  }

  /** The passes `done` already made, followed by the trace `t`. */
  function Join(done: seq<Event>, t: Trace): Trace
  {
    Trace(done + t.events, t.exit, t.controls)
  }

  lemma JoinPrepend(done: seq<Event>, e: Event, t: Trace)
    ensures Join(done, Prepend(e, t)) == Join(done + [e], t)
  {
    assert done + ([e] + t.events) == (done + [e]) + t.events;
  }

  /** What a pass does once the tick's action is applied: stop the loop,
      or record an event and go on with the time of the last frame shown. */
  datatype Pass = Stop(why: Exit) | Next(event: Event, lastEmit: real)

  /** The checks of one pass, in the order the loop makes them, on the
      controls `g`. */
  function PassOf(g: Controls, tick: Tick, lastEmit: real, interval: real, end: real, fps: real): (p: Pass)
    requires fps != 0.0
    ensures p == Next(Waited, lastEmit) <==> g.playing && g.paused
    ensures p.Next? && p.event.Shown? ==> p.lastEmit == p.event.at && p.event.at - lastEmit >= interval
    ensures p.Next? && !p.event.Shown? ==> p.lastEmit == lastEmit
  {
    if !g.playing then Stop(StopCleared)
    else if g.paused then Next(Waited, lastEmit)
    else if g.cap.None? then Stop(NoCapture)
    else if tick.frame.None? then Stop(ReadFailed)
    else if tick.frame.value / fps >= end then Stop(PastEnd)
    else if tick.now - lastEmit >= interval then
      if tick.converts then Next(Shown(tick.now), tick.now) else Next(ConvertFailed, lastEmit)
    else Next(Throttled, lastEmit)
  }

  /** The worker loop from tick `k`, with the controls `c` and the time of
      the last frame shown. */
  function Run(ticks: seq<Tick>, k: nat, c: Controls, lastEmit: real, interval: real, end: real, fps: real): Trace
    requires k <= |ticks| && fps != 0.0
    decreases |ticks| - k
  {
    if k == |ticks| then Trace([], None, c)
    else
      var g := Act(c, ticks[k].action);
      match PassOf(g, ticks[k], lastEmit, interval, end, fps)
      case Stop(why) => Trace([], Some(why), g)
      case Next(e, last) => Prepend(e, Run(ticks, k + 1, g, last, interval, end, fps))
  }

  /** A pass reads a frame exactly when the preview was not paused at it: a
      paused worker only waits. */
  lemma {:induction false} PausedReadsNothing(ticks: seq<Tick>, k: nat, c: Controls, lastEmit: real, interval: real, end: real, fps: real, i: nat)
    requires k <= |ticks| && fps != 0.0
    requires i < |Run(ticks, k, c, lastEmit, interval, end, fps).events|
    ensures k + i < |ticks|
    ensures Run(ticks, k, c, lastEmit, interval, end, fps).events[i].Waited? <==> Acted(c, ticks, k, i + 1).paused
    decreases |ticks| - k
  {
    var g := Act(c, ticks[k].action);
    assert Acted(c, ticks, k, 1) == g;
    if i > 0 {
      PausedReadsNothing(ticks, k + 1, g, if Run(ticks, k, c, lastEmit, interval, end, fps).events[0].Shown? then ticks[k].now else lastEmit,
                         interval, end, fps, i - 1);
      ActedShift(c, ticks, k, i + 1);
    }
  }

  /** The actions from tick `k` are those of tick `k` and then those from
      tick `k + 1`. */
  lemma {:induction false} ActedShift(c: Controls, ticks: seq<Tick>, k: nat, n: nat)
    requires 1 <= n && k + n <= |ticks|
    ensures Acted(c, ticks, k, n) == Acted(Act(c, ticks[k].action), ticks, k + 1, n - 1)
    decreases n
  {
    if n > 1 {
      ActedShift(c, ticks, k, n - 1);
    }
  }

  /** The loop stops only for the reasons the source names, each holding at
      the tick where it stops; when it does not stop, every tick was a pass. */
  lemma {:induction false} ExitCause(ticks: seq<Tick>, k: nat, c: Controls, lastEmit: real, interval: real, end: real, fps: real)
    requires k <= |ticks| && fps != 0.0
    ensures var t := Run(ticks, k, c, lastEmit, interval, end, fps);
            var n := |t.events|;
            k + n <= |ticks|
            && (t.exit.None? <==> k + n == |ticks|)
            && (t.exit.Some? ==>
                 var g := Acted(c, ticks, k, n + 1);
                 t.controls == g && t.exit != Some(OpenFailed)
                 && (t.exit == Some(StopCleared) <==> !g.playing)
                 && (t.exit == Some(NoCapture) <==> g.playing && !g.paused && g.cap.None?)
                 && (t.exit == Some(ReadFailed) <==> g.playing && !g.paused && g.cap.Some? && ticks[k + n].frame.None?)
                 && (t.exit == Some(PastEnd) <==>
                       g.playing && !g.paused && g.cap.Some? && ticks[k + n].frame.Some? && ticks[k + n].frame.value / fps >= end))
    decreases |ticks| - k
  {
    if k < |ticks| {
      var g := Act(c, ticks[k].action);
      var t := Run(ticks, k, c, lastEmit, interval, end, fps);
      assert Acted(c, ticks, k, 1) == g;
      var tick := ticks[k];
      if g.playing && !g.paused && g.cap.Some? && tick.frame.Some? && tick.frame.value / fps < end {
        var last := if tick.now - lastEmit >= interval && tick.converts then tick.now else lastEmit;
        ExitCause(ticks, k + 1, g, last, interval, end, fps);
        var rest := Run(ticks, k + 1, g, last, interval, end, fps);
        assert t.events == [t.events[0]] + rest.events;
        if rest.exit.Some? {
          ActedShift(c, ticks, k, |t.events| + 1);
        }
      } else if g.playing && g.paused {
        ExitCause(ticks, k + 1, g, lastEmit, interval, end, fps);
        var rest := Run(ticks, k + 1, g, lastEmit, interval, end, fps);
        assert t.events == [Waited] + rest.events;
        if rest.exit.Some? {
          ActedShift(c, ticks, k, |t.events| + 1);
        }
      }
    }
  }

  /** The wall-clock times at which frames were shown. */
  function ShownTimes(events: seq<Event>): (r: seq<real>)
    ensures |r| <= |events|
  {
    if events == [] then []
    else (if events[0].Shown? then [events[0].at] else []) + ShownTimes(events[1..])
  }

  lemma ShownTimesCons(e: Event, rest: seq<Event>)
    ensures ShownTimes([e] + rest) == (if e.Shown? then [e.at] else []) + ShownTimes(rest)
  {
    assert ([e] + rest)[1..] == rest;
  }

  /** Frames are shown at least `interval` apart, the first one at least
      `interval` after the last one shown before. */
  predicate Spaced(times: seq<real>, lastEmit: real, interval: real)
  {
    (|times| > 0 ==> times[0] - lastEmit >= interval)
    && forall j :: 0 <= j < |times| - 1 ==> times[j + 1] - times[j] >= interval
  }

  lemma {:induction false} ShownSpaced(ticks: seq<Tick>, k: nat, c: Controls, lastEmit: real, interval: real, end: real, fps: real)
    requires k <= |ticks| && fps != 0.0
    ensures Spaced(ShownTimes(Run(ticks, k, c, lastEmit, interval, end, fps).events), lastEmit, interval)
    decreases |ticks| - k
  {
    if k < |ticks| {
      var g := Act(c, ticks[k].action);
      var tick := ticks[k];
      var t := Run(ticks, k, c, lastEmit, interval, end, fps);
      if g.playing && (g.paused || (g.cap.Some? && tick.frame.Some? && tick.frame.value / fps < end)) {
        var shown := !g.paused && tick.now - lastEmit >= interval && tick.converts;
        var last := if shown then tick.now else lastEmit;
        var rest := Run(ticks, k + 1, g, last, interval, end, fps);
        ShownSpaced(ticks, k + 1, g, last, interval, end, fps);
        ShownTimesCons(t.events[0], rest.events);
        assert t.events == [t.events[0]] + rest.events;
        if shown {
          assert ShownTimes(t.events) == [tick.now] + ShownTimes(rest.events);
        } else {
          assert ShownTimes(t.events) == ShownTimes(rest.events);
          var s := ShownTimes(rest.events);
          if |s| > 0 {
            assert s[0] - last >= interval;
          }
        }
      }
    }
  }

  /** The controls once the worker is done: after a failed open only
      `playing` is cleared and the unopened capture is kept; after the loop
      stops `playing` is cleared and the capture released; while the loop
      still runs they are the loop's. */
  function Finished(opens: bool, c: Controls, t: Trace): Controls
  {
    if !opens then c.(playing := false)
    else if t.exit.Some? then t.controls.(playing := false, cap := None)
    else t.controls
  }

  /** `max(x, 1.0)`. */
  function AtLeastOne(x: real): (r: real)
    ensures r >= 1.0 && r >= x
    ensures x < 1.0 ==> r == 1.0
    ensures x >= 1.0 ==> r == x
  {
    if x >= 1.0 then x else 1.0
  }

  // ---------------------------------------------------------------- the player

  class VideoPlayer {
    var clip: Option<Clip>
    var cap: Option<Capture>
    var playing: bool
    var paused: bool
    var pauseLabel: string
    var videoFps: real
    var preview: Option<Preview>
    /** The warnings shown, oldest first. */
    var warnings: seq<string>

    /** The frame rate is never zero: the worker divides by it. */
    predicate Valid()
      reads this
    {
      videoFps != 0.0
    }

    function Snapshot(): Controls
      reads this
    {
      Controls(playing, paused, pauseLabel, cap)
    }

    constructor()
      ensures Valid()
      ensures clip == None && cap == None && !playing && !paused && pauseLabel == "Pause"
      ensures videoFps == 30.0 && preview == None && warnings == []
    {
      clip := None;
      cap := None;
      playing := false;
      paused := false;
      pauseLabel := "Pause";
      videoFps := 30.0;
      preview := None;
      warnings := [];
    }

    method StopPreview()
      modifies this
      ensures Snapshot() == Stopped(old(Snapshot()))
      ensures clip == old(clip) && videoFps == old(videoFps) && preview == old(preview) && warnings == old(warnings)
    {
      playing := false;
      paused := false;
      pauseLabel := "Pause";
    }

    method TogglePause()
      modifies this
      ensures Snapshot() == Toggled(old(Snapshot()))
      ensures clip == old(clip) && videoFps == old(videoFps) && preview == old(preview) && warnings == old(warnings)
    {
      paused := !paused;
      pauseLabel := if paused then "Resume" else "Pause";
    }

    /** `_safe_release_cap`. */
    method ReleaseCapture()
      modifies this
      ensures Snapshot() == old(Snapshot()).(cap := None)
      ensures clip == old(clip) && videoFps == old(videoFps) && preview == old(preview) && warnings == old(warnings)
    {
      cap := None;
    }

    /** `load_video`: stop the preview, load the clip, reopen the capture on
        it and take its frame rate, 30 when it reports none. */
    method LoadVideo(path: string, loaded: Loaded, opens: bool, fps: Option<real>)
      modifies this
      ensures Valid() == (old(Valid()) || loaded.Loaded?)
      ensures loaded.LoadFailed? ==>
                Snapshot() == Stopped(old(Snapshot())) && clip == old(clip) && videoFps == old(videoFps)
                && warnings == old(warnings) + ["Video could not be loaded: " + loaded.message]
      ensures loaded.Loaded? ==>
                Snapshot() == Stopped(old(Snapshot())).(cap := Some(Capture(path, opens, 0)))
                && clip == Some(Clip(path, loaded.duration)) && videoFps == FpsOr30(fps) && warnings == old(warnings)
      ensures preview == old(preview)
    {
      StopPreview();
      match loaded {
        case LoadFailed(message) =>
          warnings := warnings + ["Video could not be loaded: " + message];
        case Loaded(duration) =>
          clip := Some(Clip(path, duration));
          ReleaseCapture();
          cap := Some(Capture(path, opens, 0));
          videoFps := FpsOr30(fps);
      }
    }

    /** `start_video_preview`: check the clip, stop a running preview, read
        the two times and start the worker on a valid span. Reading the
        entries has no effect, so the model reads them first. */
    method StartVideoPreview(startText: string, endText: string)
      modifies this
      ensures var d := Decide(old(clip).Some?, ParsePyFloat(startText), ParsePyFloat(endText));
              Snapshot() == StartControls(old(Snapshot()), d)
              && warnings == old(warnings) + StartWarnings(d)
              && preview == (if d.Launch? then Some(Preview(d.start, d.end)) else old(preview))
      ensures clip == old(clip) && videoFps == old(videoFps)
    {
      var s := ParsePyFloat(startText);
      var e := ParsePyFloat(endText);
      StartWith(s, e);
    }

    /** `start_video_preview` once `float` has read the entries as `s` and
        `e` (`None` for the `ValueError`). */
    method StartWith(s: Option<real>, e: Option<real>)
      modifies this
      ensures var d := Decide(old(clip).Some?, s, e);
              Snapshot() == StartControls(old(Snapshot()), d)
              && warnings == old(warnings) + StartWarnings(d)
              && preview == (if d.Launch? then Some(Preview(d.start, d.end)) else old(preview))
      ensures clip == old(clip) && videoFps == old(videoFps)
    {
      if clip.None? {
        warnings := warnings + ["No video loaded."];
        return;
      }
      if playing {
        StopPreview();
      }
      if s.None? || e.None? {
        warnings := warnings + ["Invalid start or end time."];
        return;
      }
      if s.value >= e.value {
        warnings := warnings + ["Start time should be less than end time."];
        return;
      }
      playing := true;
      paused := false;
      preview := Some(Preview(s.value, e.value));
    }

    /** `_play_video_preview_worker`, run with the ticks another thread and
        the capture supply: reopen the capture on the clip and seek to the
        start, then show frames until a stop, a missing capture, a failed
        read or the end of the span. */
    method PreviewWorker(start: real, end: real, opens: bool, ticks: seq<Tick>) returns (exit: Option<Exit>, events: seq<Event>)
      requires Valid() && clip.Some?
      modifies this
      ensures var file := old(clip).value.filename;
              var c0 := old(Snapshot()).(cap := Some(Capture(file, opens, if opens then Trunc(start * old(videoFps)) else 0)));
              var t := Run(ticks, 0, c0, 0.0, 1.0 / AtLeastOne(old(videoFps)), end, old(videoFps));
              (!opens ==> exit == Some(OpenFailed) && events == [] && warnings == old(warnings) + ["Could not open video capture."])
              && (opens ==> exit == t.exit && events == t.events && warnings == old(warnings))
              && Snapshot() == Finished(opens, c0, t)
      ensures exit.Some? && exit != Some(OpenFailed) ==> !playing && cap.None?
      ensures clip == old(clip) && videoFps == old(videoFps) && preview == old(preview)
    {
      ReleaseCapture();
      var file := clip.value.filename;
      cap := Some(Capture(file, opens, 0));
      if !opens {
        playing := false;
        warnings := warnings + ["Could not open video capture."];
        return Some(OpenFailed), [];
      }
      var seek := Trunc(start * videoFps);
      assert seek == Trunc(start * old(videoFps));
      cap := Some(Capture(file, true, seek));
      ghost var c0 := Snapshot();
      assert c0 == old(Snapshot()).(cap := Some(Capture(file, opens, if opens then Trunc(start * old(videoFps)) else 0)));
      var interval := 1.0 / AtLeastOne(videoFps);
      assert interval == 1.0 / AtLeastOne(old(videoFps));
      exit, events := WorkerLoop(ticks, interval, end);
      ghost var t := Run(ticks, 0, c0, 0.0, interval, end, old(videoFps));
      assert exit == t.exit && events == t.events && Snapshot() == t.controls;
      if exit.Some? {
        playing := false;
        ReleaseCapture();
      }
    }

    /** The `while self.playing_preview` loop of the worker, from a fresh
        `last_emit` of 0. */
    method WorkerLoop(ticks: seq<Tick>, interval: real, end: real) returns (exit: Option<Exit>, events: seq<Event>)
      requires Valid()
      modifies this
      ensures var t := Run(ticks, 0, old(Snapshot()), 0.0, interval, end, old(videoFps));
              exit == t.exit && events == t.events && Snapshot() == t.controls
      ensures clip == old(clip) && videoFps == old(videoFps) && preview == old(preview) && warnings == old(warnings)
    {
      var lastEmit := 0.0;
      ghost var full := Run(ticks, 0, Snapshot(), 0.0, interval, end, videoFps);
      events := [];
      exit := None;
      var k := 0;
      assert full == Join(events, full);
      while k < |ticks| && exit.None?
        invariant 0 <= k <= |ticks| && Valid()
        invariant clip == old(clip) && videoFps == old(videoFps) && preview == old(preview) && warnings == old(warnings)
        invariant exit.None? ==> full == Join(events, Run(ticks, k, Snapshot(), lastEmit, interval, end, videoFps))
        invariant exit.Some? ==> full == Join(events, Trace([], exit, Snapshot()))
        decreases |ticks| - k, exit.None?
      {
        ghost var before := Snapshot();
        var p := WorkerPass(ticks[k], lastEmit, interval, end);
        assert Run(ticks, k, before, lastEmit, interval, end, videoFps) ==
               match p
               case Stop(why) => Trace([], Some(why), Snapshot())
               case Next(e, last) => Prepend(e, Run(ticks, k + 1, Snapshot(), last, interval, end, videoFps));
        match p {
          case Stop(why) =>
            exit := Some(why);
          case Next(e, last) =>
            JoinPrepend(events, e, Run(ticks, k + 1, Snapshot(), last, interval, end, videoFps));
            events := events + [e];
            lastEmit := last;
            k := k + 1;
        }
      }
      assert events + [] == events;
    }

    /** One pass of the worker loop: the tick's action, then the checks of
        the pass. */
    method WorkerPass(tick: Tick, lastEmit: real, interval: real, end: real) returns (p: Pass)
      requires Valid()
      modifies this
      ensures clip == old(clip) && videoFps == old(videoFps) && preview == old(preview) && warnings == old(warnings)
      ensures Snapshot() == Act(old(Snapshot()), tick.action)
      ensures p == PassOf(Snapshot(), tick, lastEmit, interval, end, videoFps)
    {
      match tick.action {
        case Idle =>
        case StopPressed => StopPreview();
        case PausePressed => TogglePause();
        case Released => ReleaseCapture();
      }
      if !playing {
        return Stop(StopCleared);
      }
      if paused {
        return Next(Waited, lastEmit);
      }
      if cap.None? {
        return Stop(NoCapture);
      }
      if tick.frame.None? {
        return Stop(ReadFailed);
      }
      if tick.frame.value / videoFps >= end {
        return Stop(PastEnd);
      }
      if tick.now - lastEmit >= interval {
        if tick.converts {
          return Next(Shown(tick.now), tick.now);
        }
        return Next(ConvertFailed, lastEmit);
      }
      return Next(Throttled, lastEmit);
    }

    /** `trim_video` up to the encoder run: the command it would run, or the
        warning it shows. */
    method TrimVideo(startText: string, endText: string, outputPath: string, config: TrimConfig, ffmpeg: string, show: real -> string)
      returns (o: TrimOutcome)
      modifies this
      ensures o == TrimPlan(old(clip), startText, endText, outputPath, config, ffmpeg, show)
      ensures warnings == old(warnings) + TrimWarnings(o)
      ensures Snapshot() == old(Snapshot()) && clip == old(clip) && videoFps == old(videoFps) && preview == old(preview)
    {
      if clip.None? {
        warnings := warnings + ["No video loaded."];
        return NoVideo;
      }
      var start := ParsePyFloat(startText);
      var end := ParsePyFloat(endText);
      o := TrimTimes(startText, endText, start, end, outputPath, config, ffmpeg, show);
    }

    /** The rest of `trim_video` once the two entries are read. */
    method TrimTimes(startText: string, endText: string, start: Option<real>, end: Option<real>,
                     outputPath: string, config: TrimConfig, ffmpeg: string, show: real -> string)
      returns (o: TrimOutcome)
      requires clip.Some?
      modifies this
      ensures o == TrimWith(clip, startText, endText, start, end, outputPath, config, ffmpeg, show)
      ensures warnings == old(warnings) + TrimWarnings(o)
      ensures Snapshot() == old(Snapshot()) && clip == old(clip) && videoFps == old(videoFps) && preview == old(preview)
    {
      if start.None? || end.None? {
        var message := FloatError(if start.None? then startText else endText);
        warnings := warnings + ["Error trimming the video: " + message];
        return TrimError(message);
      }
      if start.value >= end.value || end.value > clip.value.duration {
        warnings := warnings + ["Invalid trim times."];
        return InvalidTimes;
      }
      if outputPath == "" {
        return Cancelled;
      } else {
        var cmd;
        if config.discord {
          var b := DiscordBitrates(end.value - start.value, 8.0);
          cmd := Flatten(DiscordTrimArgs(ffmpeg, show(start.value), show(end.value), clip.value.filename, b, outputPath));
        } else {
          var preset := Setting(config.preset, "medium");
          var bitrate := Setting(config.bitrate, "2500k");
          var resolution := Resolution(config.resolution);
          cmd := Flatten(PlainTrimArgs(ffmpeg, clip.value.filename, show(start.value), show(end.value), preset, bitrate, resolution, outputPath));
        }
        return Encode(cmd, end.value - start.value);
      }
    }
  }
}
