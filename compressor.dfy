/** The compression job (`compress_to_discord_10mb`): checks its inputs,
    plans the budget, then walks the ladder, running one encode per rung and
    judging the temporary file it leaves, until one fits. The probes, the
    encoder and the file system are inputs: the probed duration and height,
    one encoder run per attempt number, the set of existing directories and a
    map from file path to size. */
module Compressor {
  import opened Common
  import opened Paths
  import opened EncoderProgress
  import opened SizeBudget

  /** A temporary file smaller than this counts as an empty or broken
      encode. */
  const MinOutputBytes: nat := 50000
  const BytesPerMb: real := 1048576.0

  /** One request: the encoder binary, the input, the optional output
      directory, the byte limit, and what the two probes report (`None` for
      the duration stands for a probe that raised). */
  datatype Job = Job(ffmpeg: string, input: string, outDir: Option<string>, maxBytes: int,
                     duration: Option<real>, height: Option<int>)

  datatype JobError =
    | ProbeFailed
    | InvalidDuration
    | InvalidOutputDir
    | OverwritesInput
    | EncoderFailed(code: int, tail: string)
    | EncoderTimedOut

  /** What the job returns, `(ok, output_path, size_mb)`, or the error it
      raises. */
  datatype JobResult = Done(ok: bool, path: string, sizeMb: real) | Raised(error: JobError)

  /** Everything fixed before the first attempt. */
  datatype Plan = Plan(ffmpeg: string, input: string, outDir: string, base: string, final: string,
                       maxBytes: int, duration: real, total: int, sourceHeight: int)

  datatype Prepared = Ready(plan: Plan) | Refused(error: JobError)

  /** `os.path.isdir`: the empty path is never a directory. */
  predicate IsDir(dirs: set<string>, path: string)
  {
    path != [] && path in dirs
  }

  /** The output directory: the one given, or the input's own directory when
      none or an empty one is given. */
  function OutputDir(job: Job): string
  {
    if job.outDir.None? || job.outDir.value == [] then Dirname(job.input) else job.outDir.value
  }

  /** The input's file name without its extension. */
  function BaseOf(input: string): (base: string)
    ensures Lacks(base, '/')
  {
    var name := Basename(input);
    var parts := SplitExt(name);
    assert name == parts.0 + parts.1;
    assert parts.0 == name[..|parts.0|];
    parts.0
  }

  function FinalPath(outDir: string, base: string): string
  {
    Join(outDir, FinalName(base))
  }

  function TmpPath(outDir: string, base: string, idx: nat): string
  {
    Join(outDir, TmpName(base, idx))
  }

  /** What a plan made from a job always satisfies. */
  predicate WellFormed(plan: Plan)
  {
    plan.sourceHeight > 0 && plan.total >= MinTotalBps
    && plan.base == BaseOf(plan.input)
    && plan.final == FinalPath(plan.outDir, plan.base)
  }

  /** The checks made before any attempt, in the order the job makes them,
      and the plan they lead to. */
  function Prepare(job: Job, dirs: set<string>): (p: Prepared)
    ensures p.Refused? <==> job.duration.None? || job.duration.value <= 0.0 || !IsDir(dirs, OutputDir(job))
                            || job.input == FinalPath(OutputDir(job), BaseOf(job.input))
    ensures p == Refused(ProbeFailed) <==> job.duration.None?
    ensures p == Refused(InvalidDuration) <==> job.duration.Some? && job.duration.value <= 0.0
    ensures p == Refused(InvalidOutputDir) <==> job.duration.Some? && job.duration.value > 0.0 && !IsDir(dirs, OutputDir(job))
    ensures p.Ready? ==> WellFormed(p.plan) && p.plan.input == job.input && p.plan.maxBytes == job.maxBytes
    ensures p.Ready? ==> p.plan.duration == job.duration.value && p.plan.sourceHeight == SourceHeight(job.height)
  {
    if job.duration.None? then Refused(ProbeFailed)
    else if job.duration.value <= 0.0 then Refused(InvalidDuration)
    else
      var outDir := OutputDir(job);
      if !IsDir(dirs, outDir) then Refused(InvalidOutputDir)
      else
        var base := BaseOf(job.input);
        var final := FinalPath(outDir, base);
        if job.input == final then Refused(OverwritesInput)
        else
          var total := TotalBps(TargetBytes(job.maxBytes), job.duration.value);
          Ready(Plan(job.ffmpeg, job.input, outDir, base, final, job.maxBytes, job.duration.value, total,
                     SourceHeight(job.height)))
  }

  // ---------------------------------------------------------------- one attempt

  /** What attempt `k` (counted from 0, announced as `k + 1`) asks for. */
  datatype AttemptPlan = AttemptPlan(idx: nat, scaleHeight: nat, rates: Split, filter: string, tmp: string)

  function PlanAttempt(plan: Plan, k: nat): (a: AttemptPlan)
    requires plan.sourceHeight > 0 && k < |Ladder|
    ensures a.idx == k + 1
    ensures a.scaleHeight <= plan.sourceHeight && a.scaleHeight <= Ladder[k].height
    ensures a.rates == SplitBitrate(plan.total, Ladder[k].audio)
    ensures a.tmp == TmpPath(plan.outDir, plan.base, k + 1)
  {
    var rung := Ladder[k];
    var h := ScaleHeight(plan.sourceHeight, rung.height);
    var rates := SplitBitrate(plan.total, rung.audio);
    var vf := VideoFilter(h, rung.extra);
    var tmp := TmpPath(plan.outDir, plan.base, k + 1);
    AttemptPlan(k + 1, h, rates, vf, tmp)
  }

  /** The command line attempt `a` runs. */
  function Argv(plan: Plan, a: AttemptPlan): seq<string>
  {
    EncodeCommand(plan.ffmpeg, plan.input, a.filter, a.rates.video, a.rates.audio, a.tmp)
  }

  /** How an attempt ends: the encoder raised, or it left no file, or a file
      of some size that is too small, too large or fits. */
  datatype Verdict = EncoderError(error: JobError) | NoOutput | TooSmall(size: nat) | TooLarge(size: nat) | Fits(size: nat)

  predicate Decisive(v: Verdict)
  {
    v.EncoderError? || v.Fits?
  }

  function Judge(run: EncoderRun, maxBytes: int): (v: Verdict)
    ensures v.EncoderError? <==> run.exit != Exited(0)
    ensures v.NoOutput? <==> run.exit == Exited(0) && run.output.None?
    ensures v.Fits? <==> run.exit == Exited(0) && run.output.Some? && MinOutputBytes <= run.output.value <= maxBytes
    ensures (v.Fits? || v.TooSmall? || v.TooLarge?) ==> run.output == Some(v.size)
  {
    match Status(run.exit, run.stderr)
    case ExitFailure(c, tail) => EncoderError(EncoderFailed(c, tail))
    case Timeout => EncoderError(EncoderTimedOut)
    case Succeeded =>
      match run.output
      case None => NoOutput
      case Some(n) => if n < MinOutputBytes then TooSmall(n) else if n <= maxBytes then Fits(n) else TooLarge(n)
  }

  /** The file system once the encoder has written, or not written, the
      temporary file. */
  function AfterEncode(fs: map<string, nat>, tmp: string, output: Option<nat>): map<string, nat>
  {
    if output.Some? then fs[tmp := output.value] else fs - {tmp}
  }

  /** The file system once an attempt has been judged: a rejected temporary
      file is removed, a fitting one replaces the final file. */
  function Settle(fs: map<string, nat>, v: Verdict, tmp: string, final: string): (r: map<string, nat>)
    ensures v.Fits? ==> r == (fs - {tmp})[final := v.size]
    ensures (v.TooSmall? || v.TooLarge?) ==> r == fs - {tmp}
    ensures (v.EncoderError? || v.NoOutput?) ==> r == fs
  {
    match v
    case Fits(n) => (fs - {tmp} - {final})[final := n]
    case TooSmall(_) => fs - {tmp}
    case TooLarge(_) => fs - {tmp}
    case _ => fs
  }

  /** Everything attempt `k` does, none of which depends on the attempts
      before it: what it asks for, the command line it runs, the status it
      announces, the encoder run it gets, the percentages that run reports
      and the verdict on what it leaves. */
  datatype Trial = Trial(attempt: AttemptPlan, command: seq<string>, status: string, run: EncoderRun,
                         reports: seq<int>, verdict: Verdict)

  function TrialOf(plan: Plan, encoder: nat -> EncoderRun, k: nat): (t: Trial)
    requires plan.sourceHeight > 0 && k < |Ladder|
  {
    var a := PlanAttempt(plan, k);
    var run := encoder(a.idx);
    Trial(a, Argv(plan, a), StatusText(a.idx, |Ladder|), run, Progress(run, plan.duration), Judge(run, plan.maxBytes))
  }

  /** The trials of all the rungs, in ladder order. */
  function Trials(plan: Plan, encoder: nat -> EncoderRun): (ts: seq<Trial>)
    requires plan.sourceHeight > 0
    ensures |ts| == |Ladder|
    ensures forall k :: 0 <= k < |Ladder| ==> ts[k] == TrialOf(plan, encoder, k)
  {
    seq(|Ladder|, k requires 0 <= k < |Ladder| => TrialOf(plan, encoder, k))
  }

  /** The file system after trial `t`: the encoder's write, then the
      removal or commit of the temporary file. */
  function Commit(plan: Plan, t: Trial, fs: map<string, nat>): map<string, nat>
  {
    Settle(AfterEncode(fs, t.attempt.tmp, t.run.output), t.verdict, t.attempt.tmp, plan.final)
  }

  // ---------------------------------------------------------------- the ladder

  /** What the job did: its result, the trials it ran, in order, and the
      file system it left. */
  datatype Outcome = Outcome(result: JobResult, trials: seq<Trial>, fs: map<string, nat>)

  /** `o` with earlier trials in front. */
  function Glue(earlier: seq<Trial>, o: Outcome): Outcome
  {
    Outcome(o.result, earlier + o.trials, o.fs)
  }

  /** What a decisive verdict makes the job return. */
  function ResultOf(plan: Plan, v: Verdict): JobResult
    requires Decisive(v)
  {
    if v.EncoderError? then Raised(v.error) else Done(true, plan.final, v.size as real / BytesPerMb)
  }

  /** The trials from rung `k` on, until one is decisive. */
  function Attempts(plan: Plan, trials: seq<Trial>, k: nat, fs: map<string, nat>): Outcome
    decreases |trials| - k
  {
    if k >= |trials| then Outcome(Done(false, plan.final, 0.0), [], fs)
    else
      var t := trials[k];
      var after := Commit(plan, t, fs);
      if Decisive(t.verdict) then Outcome(ResultOf(plan, t.verdict), [t], after)
      else Glue([t], Attempts(plan, trials, k + 1, after))
  }

  /** The whole job. */
  function CompressSpec(job: Job, dirs: set<string>, encoder: nat -> EncoderRun, fs: map<string, nat>): Outcome
  {
    match Prepare(job, dirs)
    case Refused(e) => Outcome(Raised(e), [], fs)
    case Ready(plan) => Attempts(plan, Trials(plan, encoder), 0, fs)
  }

  lemma GlueGlue(t1: seq<Trial>, t2: seq<Trial>, o: Outcome)
    ensures Glue(t1, Glue(t2, o)) == Glue(t1 + t2, o)
  {
    assert t1 + (t2 + o.trials) == (t1 + t2) + o.trials;
  }

  // ---------------------------------------------------------------- the methods

  /** The first part of one pass of the ladder loop: split the bitrate and
      build the filter. */
  method PlanRung(plan: Plan, k: nat) returns (a: AttemptPlan)
    requires plan.sourceHeight > 0 && k < |Ladder|
    ensures a == PlanAttempt(plan, k)
  {
    var idx := k + 1;
    var rung := Ladder[k];
    var scaleH := ScaleHeight(plan.sourceHeight, rung.height);

    var audio := rung.audio;
    var video := plan.total - audio;
    if video < VideoFloor {
      video := VideoFloor;
    }
    if audio > 0 && plan.total < audio + LowHeadroom {
      if audio > LowAudioCap {
        audio := LowAudioCap;
      }
      video := plan.total - audio;
      if video < LowVideoFloor {
        video := LowVideoFloor;
      }
    }
    assert Split(audio, video) == SplitBitrate(plan.total, rung.audio);

    var scale := "scale=-2:" + NatToString(scaleH);
    var parts := [scale];
    if rung.extra.Some? && rung.extra.value != [] {
      parts := parts + [rung.extra.value];
      assert JoinWith(parts, ",") == scale + "," + JoinWith([rung.extra.value], ",");
    }
    var vf := JoinWith(parts, ",");

    var tmp := TmpPath(plan.outDir, plan.base, idx);
    a := AttemptPlan(idx, scaleH, Split(audio, video), vf, tmp);
  }

  /** The command line of one attempt, argument by argument. */
  method BuildCommand(plan: Plan, a: AttemptPlan) returns (cmd: seq<string>)
    ensures cmd == Argv(plan, a)
  {
    var video := a.rates.video;
    var audio := a.rates.audio;
    cmd := [plan.ffmpeg, "-y", "-loglevel", "error", "-i", plan.input, "-vf", a.filter];
    cmd := cmd + ["-c:v", "libx264", "-preset", "ultrafast", "-pix_fmt", "yuv420p"];
    cmd := cmd + ["-b:v", NatToString(video), "-maxrate", NatToString(video), "-bufsize", NatToString(video * 2)];
    cmd := cmd + ["-movflags", "+faststart", "-progress", "pipe:1", "-nostats"];
    if audio > 0 {
      cmd := cmd + ["-c:a", "aac", "-b:a", NatToString(audio), "-ac", "2"];
    } else {
      cmd := cmd + ["-an"];
    }
    cmd := cmd + [a.tmp];
  }

  /** Judges the temporary file an encoder run left and removes it or
      commits it to the final path. */
  method JudgeOutput(plan: Plan, a: AttemptPlan, run: EncoderRun, status: RunStatus, fs: map<string, nat>)
    returns (verdict: Verdict, files: map<string, nat>)
    requires status == Status(run.exit, run.stderr)
    ensures verdict == Judge(run, plan.maxBytes)
    ensures files == Settle(AfterEncode(fs, a.tmp, run.output), verdict, a.tmp, plan.final)
  {
    files := fs;
    if run.output.Some? {
      files := files[a.tmp := run.output.value];
    } else {
      files := files - {a.tmp};
    }
    match status {
      case ExitFailure(c, tail) =>
        verdict := EncoderError(EncoderFailed(c, tail));
      case Timeout =>
        verdict := EncoderError(EncoderTimedOut);
      case Succeeded =>
        if a.tmp in files {
          var size := files[a.tmp];
          if size < MinOutputBytes {
            files := files - {a.tmp};
            verdict := TooSmall(size);
          } else if size <= plan.maxBytes {
            if plan.final in files {
              files := files - {plan.final};
            }
            files := (files - {a.tmp})[plan.final := size];
            verdict := Fits(size);
          } else {
            files := files - {a.tmp};
            verdict := TooLarge(size);
          }
        } else {
          verdict := NoOutput;
        }
    }
  }

  /** The last part: announce the attempt, run the encoder with its
      progress reader, and judge the temporary file it leaves, removing it
      or committing it. */
  method RunRung(plan: Plan, a: AttemptPlan, cmd: seq<string>, encoder: nat -> EncoderRun, fs: map<string, nat>)
    returns (t: Trial, files: map<string, nat>)
    ensures t.attempt == a && t.command == cmd && t.status == StatusText(a.idx, |Ladder|) && t.run == encoder(a.idx)
    ensures t.reports == Progress(t.run, plan.duration) && t.verdict == Judge(t.run, plan.maxBytes)
    ensures files == Commit(plan, t, fs)
  {
    var status := StatusText(a.idx, |Ladder|);
    var run := encoder(a.idx);
    var result := RunWithProgress(run, plan.duration);
    var verdict;
    verdict, files := JudgeOutput(plan, a, run, result.status, fs);
    t := Trial(a, cmd, status, run, result.reports, verdict);
  }

  /** One pass of the ladder loop: plan rung `k`, build its command, run it
      and judge what it leaves. */
  method LadderStep(plan: Plan, ghost trials: seq<Trial>, k: nat, encoder: nat -> EncoderRun, fs: map<string, nat>)
    returns (t: Trial, files: map<string, nat>)
    requires plan.sourceHeight > 0 && |trials| == |Ladder| && k < |Ladder|
    requires forall k {:trigger TrialOf(plan, encoder, k)} :: 0 <= k < |Ladder| ==> trials[k] == TrialOf(plan, encoder, k)
    ensures t == trials[k] && files == Commit(plan, t, fs)
  {
    var a := PlanRung(plan, k);
    var cmd := BuildCommand(plan, a);
    t, files := RunRung(plan, a, cmd, encoder, fs);
    assert t == TrialOf(plan, encoder, k);
  }

  /** The checks the job makes before any attempt, each raising. */
  method Check(job: Job, dirs: set<string>) returns (p: Prepared)
    ensures p == Prepare(job, dirs)
  {
    if job.duration.None? {
      return Refused(ProbeFailed);
    }
    var duration := job.duration.value;
    if duration <= 0.0 {
      return Refused(InvalidDuration);
    }
    var outDir := if job.outDir.None? then [] else job.outDir.value;
    if outDir == [] {
      outDir := Dirname(job.input);
    }
    if !IsDir(dirs, outDir) {
      return Refused(InvalidOutputDir);
    }
    var base := BaseOf(job.input);
    var final := FinalPath(outDir, base);
    if job.input == final {
      return Refused(OverwritesInput);
    }
    var total := TotalBps(TargetBytes(job.maxBytes), duration);
    p := Ready(Plan(job.ffmpeg, job.input, outDir, base, final, job.maxBytes, duration, total, SourceHeight(job.height)));
  }

  /** The ladder loop: one attempt per rung, in order, until one raises or
      fits. */
  method RunLadder(plan: Plan, ghost trials: seq<Trial>, encoder: nat -> EncoderRun, fs: map<string, nat>) returns (o: Outcome)
    requires plan.sourceHeight > 0 && |trials| == |Ladder|
    requires forall k {:trigger TrialOf(plan, encoder, k)} :: 0 <= k < |Ladder| ==> trials[k] == TrialOf(plan, encoder, k)
    ensures o == Attempts(plan, trials, 0, fs)
  {
    var files: map<string, nat> := fs;
    var done: seq<Trial> := [];
    ghost var full := Attempts(plan, trials, 0, fs);
    assert Glue([], full) == full;
    var k := 0;
    while k < |Ladder|
      invariant k <= |Ladder|
      invariant Glue(done, Attempts(plan, trials, k, files)) == full
    {
      var t, after := LadderStep(plan, trials, k, encoder, files);
      GlueGlue(done, [t], Attempts(plan, trials, k + 1, after));
      done := done + [t];
      files := after;
      if Decisive(t.verdict) {
        return Outcome(ResultOf(plan, t.verdict), done, files);
      }
      k := k + 1;
    }
    o := Outcome(Done(false, plan.final, 0.0), done, files);
  }

  /** The whole job. */
  method Compress(job: Job, dirs: set<string>, encoder: nat -> EncoderRun, fs: map<string, nat>) returns (o: Outcome)
    ensures o == CompressSpec(job, dirs, encoder, fs)
  {
    var prepared := Check(job, dirs);
    match prepared {
      case Refused(e) =>
        o := Outcome(Raised(e), [], fs);
      case Ready(plan) =>
        o := RunLadder(plan, Trials(plan, encoder), encoder, fs);
    }
  }
}
