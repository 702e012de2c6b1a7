/** What the compression job promises, proved about its specification:
    the checks before the first attempt, the order of the attempts, which
    verdict decides the result, and what happens to the files. */
module CompressorFacts {
  import opened Common
  import opened Paths
  import opened EncoderProgress
  import opened SizeBudget
  import opened Compressor

  // ---------------------------------------------------------------- paths

  /** A path named after the input's own base plus a suffix starting with
      `_` is never the input itself: the input's name continues its base
      with nothing or with an extension, which starts with a dot. */
  lemma NotNamedAfterOwnBase(input: string, outDir: string, suffix: string)
    requires suffix != [] && suffix[0] == '_' && Lacks(suffix, '/')
    ensures input != Join(outDir, BaseOf(input) + suffix)
  {
    var base := BaseOf(input);
    var name := base + suffix;
    forall i | 0 <= i < |name| ensures name[i] != '/' {
      if i >= |base| {
        assert name[i] == suffix[i - |base|];
      }
    }
    assert name[0] != '/' by {
      if base == [] {
        assert name[0] == suffix[0];
      }
    }
    BasenameOfJoin(outDir, name);
    var parts := SplitExt(Basename(input));
    assert parts.0 == base;
    assert Basename(input) == base + parts.1;
    assert parts.1 != suffix;
    assert base + parts.1 != name by {
      assert (base + parts.1)[|base|..] == parts.1;
      assert name[|base|..] == suffix;
    }
  }

  /** The check against overwriting the input never fires: the final name
      always differs from the input's own name. */
  lemma GuardNeverFires(job: Job, dirs: set<string>)
    ensures Prepare(job, dirs) != Refused(OverwritesInput)
  {
    var base := BaseOf(job.input);
    NamesExtendBase(base, 0);
    NotNamedAfterOwnBase(job.input, OutputDir(job), FinalName(base)[|base|..]);
    assert FinalName(base) == base + FinalName(base)[|base|..];
  }

  /** A path the job never writes: neither the final file nor any
      temporary file of the plan. */
  ghost predicate Untouched(plan: Plan, p: string)
  {
    p != plan.final && forall j: nat :: p != TmpPath(plan.outDir, plan.base, j)
  }

  /** The input is never written. */
  lemma InputUntouched(plan: Plan)
    requires WellFormed(plan)
    ensures Untouched(plan, plan.input)
  {
    var base := plan.base;
    NamesExtendBase(base, 0);
    NotNamedAfterOwnBase(plan.input, plan.outDir, FinalName(base)[|base|..]);
    assert FinalName(base) == base + FinalName(base)[|base|..];
    forall j: nat ensures plan.input != TmpPath(plan.outDir, base, j) {
      NamesExtendBase(base, j);
      var suffix := TmpName(base, j)[|base|..];
      assert TmpName(base, j) == base + suffix;
      NotNamedAfterOwnBase(plan.input, plan.outDir, suffix);
    }
  }

  /** No temporary file is the final file, and different attempts write
      different temporary files. */
  lemma PathsDistinct(plan: Plan, i: nat, j: nat)
    requires WellFormed(plan)
    ensures plan.final != TmpPath(plan.outDir, plan.base, i)
    ensures TmpPath(plan.outDir, plan.base, i) == TmpPath(plan.outDir, plan.base, j) ==> i == j
  {
    var base := plan.base;
    NamesExtendBase(base, i);
    NamesExtendBase(base, j);
    assert FinalName(base)[0] != '/' && TmpName(base, i)[0] != '/' && TmpName(base, j)[0] != '/' by {
      if base != [] {
        assert FinalName(base)[0] == base[0] && TmpName(base, i)[0] == base[0] && TmpName(base, j)[0] == base[0];
      }
    }
    TmpIsNotFinal(base, i);
    if plan.final == TmpPath(plan.outDir, base, i) {
      JoinInjective(plan.outDir, FinalName(base), TmpName(base, i));
    }
    TmpNamesDistinct(base, i, j);
    if TmpPath(plan.outDir, base, i) == TmpPath(plan.outDir, base, j) {
      JoinInjective(plan.outDir, TmpName(base, i), TmpName(base, j));
    }
  }

  // ---------------------------------------------------------------- one attempt

  /** The scale height an attempt uses is the one in its filter, and it
      exceeds neither the source nor the rung; only the last rung drops the
      audio. */
  lemma AttemptFilter(plan: Plan, k: nat)
    requires plan.sourceHeight > 0 && k < |Ladder|
    ensures var a := PlanAttempt(plan, k);
            a.scaleHeight <= plan.sourceHeight && a.scaleHeight <= Ladder[k].height
            && a.filter == VideoFilter(a.scaleHeight, Ladder[k].extra)
            && (a.rates.audio > 0 <==> k < |Ladder| - 1)
  {
    LadderShape();
  }

  /** The command of an attempt carries its filter, its rates and, last, its
      temporary file; `-an` stands where the audio options would when it has
      no audio. */
  lemma CommandOfAttempt(plan: Plan, a: AttemptPlan)
    ensures var cmd := Argv(plan, a);
            cmd[0] == plan.ffmpeg && cmd[5] == plan.input && cmd[7] == a.filter && cmd[|cmd| - 1] == a.tmp
            && ParsePyInt(cmd[15]) == Some(a.rates.video)
            && (cmd[25] == "-an" <==> a.rates.audio <= 0)
            && (a.rates.audio > 0 ==> ParsePyInt(cmd[28]) == Some(a.rates.audio))
  {
    CommandShape(plan.ffmpeg, plan.input, a.filter, a.rates.video, a.rates.audio, a.tmp);
    CommandRates(plan.ffmpeg, plan.input, a.filter, a.rates.video, a.rates.audio, a.tmp);
  }

  /** Whether `p` holds the same file, or the same absence, in both maps. */
  predicate Same(before: map<string, nat>, after: map<string, nat>, p: string)
  {
    (p in before <==> p in after) && (p in before ==> before[p] == after[p])
  }

  /** Whether trial `t`'s verdict is the one its run earns. */
  predicate Judged(plan: Plan, t: Trial)
  {
    t.verdict == Judge(t.run, plan.maxBytes)
  }

  /** What one judged attempt does to the files: a rejected or missing
      temporary file is gone afterwards, a fitting one has become the final
      file, and one the encoder raised for is left as the encoder left it. */
  lemma StepFiles(plan: Plan, t: Trial, fs: map<string, nat>)
    requires Judged(plan, t)
    ensures !Decisive(t.verdict) ==> Commit(plan, t, fs) == fs - {t.attempt.tmp}
    ensures t.verdict.Fits? ==> Commit(plan, t, fs) == (fs - {t.attempt.tmp})[plan.final := t.verdict.size]
    ensures t.verdict.EncoderError? ==> Commit(plan, t, fs) == AfterEncode(fs, t.attempt.tmp, t.run.output)
  {
    var tmp := t.attempt.tmp;
    if t.verdict.TooSmall? || t.verdict.TooLarge? {
      assert fs[tmp := t.verdict.size] - {tmp} == fs - {tmp};
    }
  }

  /** Whether a run ends the ladder: the encoder raised, or it left a file
      of an acceptable size. */
  predicate Decides(run: EncoderRun, maxBytes: int)
  {
    run.exit != Exited(0) || (run.output.Some? && MinOutputBytes <= run.output.value <= maxBytes)
  }

  /** Whether every trial's verdict is the one its run earns. */
  predicate AllJudged(plan: Plan, trials: seq<Trial>)
  {
    forall j :: 0 <= j < |trials| ==> Judged(plan, trials[j])
  }

  /** A run decides exactly when its verdict is decisive. */
  lemma DecidesIffDecisive(run: EncoderRun, maxBytes: int)
    ensures Decides(run, maxBytes) <==> Decisive(Judge(run, maxBytes))
  {
  }

  // ---------------------------------------------------------------- the ladder

  /** The attempts run the trials in order from rung `k`; while rungs remain
      there is at least one attempt. */
  lemma {:induction false} AttemptsFollowLadder(plan: Plan, trials: seq<Trial>, k: nat, fs: map<string, nat>)
    requires k <= |trials|
    ensures |Attempts(plan, trials, k, fs).trials| <= |trials| - k
    ensures k < |trials| ==> |Attempts(plan, trials, k, fs).trials| >= 1
    ensures forall i :: 0 <= i < |Attempts(plan, trials, k, fs).trials| ==> Attempts(plan, trials, k, fs).trials[i] == trials[k + i]
    decreases |trials| - k
  {
    if k < |trials| {
      var t := trials[k];
      var after := Commit(plan, t, fs);
      if !Decisive(t.verdict) {
        AttemptsFollowLadder(plan, trials, k + 1, after);
        var rest := Attempts(plan, trials, k + 1, after);
        var o := Attempts(plan, trials, k, fs);
        assert o.trials == [t] + rest.trials;
        forall i | 1 <= i < |o.trials| ensures o.trials[i] == trials[k + i] {
          assert o.trials[i] == rest.trials[i - 1];
        }
      }
    }
  }

  /** No attempt runs after one whose verdict is decisive (an encoder that
      raised, or a file that fits). */
  lemma {:induction false} NothingAfterDecisive(plan: Plan, trials: seq<Trial>, k: nat, fs: map<string, nat>)
    requires k <= |trials|
    ensures forall i :: 0 <= i < |Attempts(plan, trials, k, fs).trials| - 1 ==>
              !Decisive(Attempts(plan, trials, k, fs).trials[i].verdict)
    decreases |trials| - k
  {
    if k < |trials| {
      var t := trials[k];
      var after := Commit(plan, t, fs);
      if !Decisive(t.verdict) {
        NothingAfterDecisive(plan, trials, k + 1, after);
        var rest := Attempts(plan, trials, k + 1, after);
        var o := Attempts(plan, trials, k, fs);
        assert o.trials == [t] + rest.trials;
        forall i | 1 <= i < |o.trials| ensures o.trials[i] == rest.trials[i - 1] {
        }
      }
    }
  }

  /** The job reports failure exactly when no attempt is decisive, and then
      every remaining rung has run. */
  lemma {:induction false} FailsIffNoneDecides(plan: Plan, trials: seq<Trial>, k: nat, fs: map<string, nat>)
    requires k <= |trials|
    ensures Attempts(plan, trials, k, fs).result == Done(false, plan.final, 0.0) <==>
              forall i :: 0 <= i < |Attempts(plan, trials, k, fs).trials| ==> !Decisive(Attempts(plan, trials, k, fs).trials[i].verdict)
    ensures Attempts(plan, trials, k, fs).result == Done(false, plan.final, 0.0) ==> |Attempts(plan, trials, k, fs).trials| == |trials| - k
    decreases |trials| - k
  {
    if k < |trials| {
      var t := trials[k];
      var after := Commit(plan, t, fs);
      var o := Attempts(plan, trials, k, fs);
      if !Decisive(t.verdict) {
        FailsIffNoneDecides(plan, trials, k + 1, after);
        var rest := Attempts(plan, trials, k + 1, after);
        assert o.trials == [t] + rest.trials;
        forall i | 1 <= i < |o.trials| ensures o.trials[i] == rest.trials[i - 1] {
        }
        forall i | 0 <= i < |rest.trials| ensures rest.trials[i] == o.trials[i + 1] {
        }
      } else {
        assert o.trials[0] == t;
      }
    }
  }

  /** Any other result is decided by the last attempt: its verdict is
      decisive and gives the result. */
  lemma {:induction false} LastDecides(plan: Plan, trials: seq<Trial>, k: nat, fs: map<string, nat>)
    requires k <= |trials|
    ensures var o := Attempts(plan, trials, k, fs);
            o.result != Done(false, plan.final, 0.0) ==>
              o.trials != [] && Decisive(o.trials[|o.trials| - 1].verdict)
              && o.result == ResultOf(plan, o.trials[|o.trials| - 1].verdict)
    decreases |trials| - k
  {
    if k < |trials| {
      var t := trials[k];
      var after := Commit(plan, t, fs);
      if !Decisive(t.verdict) {
        LastDecides(plan, trials, k + 1, after);
        var rest := Attempts(plan, trials, k + 1, after);
        var o := Attempts(plan, trials, k, fs);
        assert o.trials == [t] + rest.trials;
        assert rest.trials != [] ==> o.trials[|o.trials| - 1] == rest.trials[|rest.trials| - 1];
      }
    }
  }

  /** Every result that is not raised names the final file, and reports a
      positive size exactly when it reports success. */
  lemma {:induction false} DoneNamesFinal(plan: Plan, trials: seq<Trial>, k: nat, fs: map<string, nat>)
    requires k <= |trials| && AllJudged(plan, trials)
    ensures var o := Attempts(plan, trials, k, fs);
            o.result.Done? ==> o.result.path == plan.final && (o.result.ok <==> o.result.sizeMb > 0.0)
    decreases |trials| - k
  {
    if k < |trials| {
      var t := trials[k];
      if !Decisive(t.verdict) {
        DoneNamesFinal(plan, trials, k + 1, Commit(plan, t, fs));
      }
    }
  }

  // ---------------------------------------------------------------- the files

  /** Judged trials with temporary files one per rung, none of them the
      final file. */
  predicate SeparateFiles(plan: Plan, trials: seq<Trial>)
  {
    AllJudged(plan, trials)
    && (forall j :: 0 <= j < |trials| ==> trials[j].attempt.tmp != plan.final)
    && (forall i, j :: 0 <= i < j < |trials| ==> trials[i].attempt.tmp != trials[j].attempt.tmp)
  }

  /** A path no attempt from rung `k` on writes. */
  predicate Outside(plan: Plan, trials: seq<Trial>, k: nat, p: string)
  {
    p != plan.final && forall j :: k <= j < |trials| ==> p != trials[j].attempt.tmp
  }

  /** The job changes no file but the final one and the temporary ones of
      its attempts. */
  lemma {:induction false} OthersUnchanged(plan: Plan, trials: seq<Trial>, k: nat, fs: map<string, nat>, o: Outcome, p: string)
    requires k <= |trials| && o == Attempts(plan, trials, k, fs)
    requires SeparateFiles(plan, trials) && Outside(plan, trials, k, p)
    ensures Same(fs, o.fs, p)
    decreases |trials| - k
  {
    if k < |trials| {
      var t := trials[k];
      StepFiles(plan, t, fs);
      if !Decisive(t.verdict) {
        var after := Commit(plan, t, fs);
        OthersUnchanged(plan, trials, k + 1, after, Attempts(plan, trials, k + 1, after), p);
      }
    }
  }

  /** Unless an encoder raised, every temporary file the job made is gone
      when it returns. */
  lemma {:induction false} TmpFilesRemoved(plan: Plan, trials: seq<Trial>, k: nat, fs: map<string, nat>, o: Outcome)
    requires k <= |trials| && o == Attempts(plan, trials, k, fs)
    requires SeparateFiles(plan, trials)
    ensures k + |o.trials| <= |trials|
    ensures o.result.Done? ==> forall i :: k <= i < k + |o.trials| ==> trials[i].attempt.tmp !in o.fs
    decreases |trials| - k
  {
    AttemptsFollowLadder(plan, trials, k, fs);
    if k < |trials| {
      var t := trials[k];
      StepFiles(plan, t, fs);
      if !Decisive(t.verdict) {
        var after := Commit(plan, t, fs);
        var rest := Attempts(plan, trials, k + 1, after);
        TmpFilesRemoved(plan, trials, k + 1, after, rest);
        OthersUnchanged(plan, trials, k + 1, after, rest, t.attempt.tmp);
        assert |o.trials| == 1 + |rest.trials|;
      }
    }
  }

  /** A job that succeeds has committed a file of an acceptable size to the
      final path and reports that size in mebibytes. */
  lemma {:induction false} SuccessCommitted(plan: Plan, trials: seq<Trial>, k: nat, fs: map<string, nat>, o: Outcome)
    requires k <= |trials| && o == Attempts(plan, trials, k, fs)
    requires SeparateFiles(plan, trials)
    ensures o.result.Done? && o.result.ok ==>
              plan.final in o.fs && MinOutputBytes <= o.fs[plan.final] <= plan.maxBytes
              && o.result.sizeMb == o.fs[plan.final] as real / BytesPerMb
    decreases |trials| - k
  {
    if k < |trials| {
      var t := trials[k];
      StepFiles(plan, t, fs);
      if !Decisive(t.verdict) {
        var after := Commit(plan, t, fs);
        SuccessCommitted(plan, trials, k + 1, after, Attempts(plan, trials, k + 1, after));
      }
    }
  }

  /** A job that fails leaves the final path as it found it. */
  lemma {:induction false} FailureKeepsFinal(plan: Plan, trials: seq<Trial>, k: nat, fs: map<string, nat>, o: Outcome)
    requires k <= |trials| && o == Attempts(plan, trials, k, fs)
    requires SeparateFiles(plan, trials)
    ensures o.result.Done? && !o.result.ok ==> Same(fs, o.fs, plan.final)
    decreases |trials| - k
  {
    if k < |trials| {
      var t := trials[k];
      StepFiles(plan, t, fs);
      if !Decisive(t.verdict) {
        var after := Commit(plan, t, fs);
        FailureKeepsFinal(plan, trials, k + 1, after, Attempts(plan, trials, k + 1, after));
      }
    }
  }

  // ---------------------------------------------------------------- the whole job

  /** Trial `k` of a plan writes the temporary file numbered `k + 1` and is
      judged by its own run. */
  lemma TrialTmp(plan: Plan, encoder: nat -> EncoderRun, k: nat)
    requires plan.sourceHeight > 0 && k < |Ladder|
    ensures Trials(plan, encoder)[k].attempt.tmp == TmpPath(plan.outDir, plan.base, k + 1)
    ensures Judged(plan, Trials(plan, encoder)[k])
  {
  }

  /** The temporary files of two trials are neither the final file nor the
      input, and differ when the trials do. */
  lemma TrialsApart(plan: Plan, encoder: nat -> EncoderRun, i: nat, j: nat)
    requires WellFormed(plan) && i < |Ladder| && j < |Ladder|
    ensures Trials(plan, encoder)[i].attempt.tmp != plan.final && Trials(plan, encoder)[i].attempt.tmp != plan.input
    ensures i != j ==> Trials(plan, encoder)[i].attempt.tmp != Trials(plan, encoder)[j].attempt.tmp
  {
    TrialTmp(plan, encoder, i);
    TrialTmp(plan, encoder, j);
    PathsDistinct(plan, i + 1, j + 1);
    InputUntouched(plan);
  }

  /** The trials of a plan write one temporary file each, numbered after
      the attempt, none of them the final file nor the input, and each is
      judged by its own run. */
  lemma LadderFiles(plan: Plan, encoder: nat -> EncoderRun)
    requires WellFormed(plan)
    ensures forall k :: 0 <= k < |Ladder| ==> Trials(plan, encoder)[k].attempt.tmp == TmpPath(plan.outDir, plan.base, k + 1)
    ensures SeparateFiles(plan, Trials(plan, encoder))
    ensures Outside(plan, Trials(plan, encoder), 0, plan.input)
  {
    var trials := Trials(plan, encoder);
    InputUntouched(plan);
    forall k | 0 <= k < |Ladder| ensures trials[k].attempt.tmp == TmpPath(plan.outDir, plan.base, k + 1) && Judged(plan, trials[k]) {
      TrialTmp(plan, encoder, k);
    }
    forall i, j | 0 <= i < |trials| && 0 <= j < |trials|
      ensures trials[i].attempt.tmp != plan.final && trials[i].attempt.tmp != plan.input
      ensures i != j ==> trials[i].attempt.tmp != trials[j].attempt.tmp
    {
      TrialsApart(plan, encoder, i, j);
    }
  }

  /** The job runs at least one attempt exactly when its checks pass. */
  lemma AttemptsIffChecksPass(job: Job, dirs: set<string>, encoder: nat -> EncoderRun, fs: map<string, nat>)
    ensures CompressSpec(job, dirs, encoder, fs).trials != [] <==> Prepare(job, dirs).Ready?
  {
    if Prepare(job, dirs).Ready? {
      var plan := Prepare(job, dirs).plan;
      AttemptsFollowLadder(plan, Trials(plan, encoder), 0, fs);
    }
  }

  /** Attempt `i` of a ladder is its trial `i`. */
  lemma TrialAt(plan: Plan, trials: seq<Trial>, fs: map<string, nat>, i: nat)
    requires i < |Attempts(plan, trials, 0, fs).trials|
    ensures i < |trials| && Attempts(plan, trials, 0, fs).trials[i] == trials[i]
  {
    AttemptsFollowLadder(plan, trials, 0, fs);
  }

  /** What trial `k` of a plan is made of. */
  lemma TrialFields(plan: Plan, encoder: nat -> EncoderRun, k: nat)
    requires plan.sourceHeight > 0 && k < |Ladder|
    ensures var t := Trials(plan, encoder)[k];
            t.attempt == PlanAttempt(plan, k) && t.status == StatusText(k + 1, |Ladder|)
            && t.command == Argv(plan, t.attempt) && t.run == encoder(k + 1)
            && t.reports == Progress(t.run, plan.duration) && t.verdict == Judge(t.run, plan.maxBytes)
            && t.attempt.scaleHeight <= plan.sourceHeight && t.attempt.scaleHeight <= Ladder[k].height
  {
  }

  /** Attempt `i` of the job is rung `i`: it is announced as attempt `i + 1`
      of 8, runs the command line of that rung, gets the encoder run for
      that number and its progress, is judged by that run, and is scaled to
      at most the source's height (2160 when the probe gives none) and the
      rung's height. */
  lemma AttemptInOrder(job: Job, dirs: set<string>, encoder: nat -> EncoderRun, fs: map<string, nat>, i: nat)
    requires i < |CompressSpec(job, dirs, encoder, fs).trials|
    ensures Prepare(job, dirs).Ready? && i < |Ladder|
    ensures var plan := Prepare(job, dirs).plan;
            var t := CompressSpec(job, dirs, encoder, fs).trials[i];
            t.attempt == PlanAttempt(plan, i) && t.status == StatusText(i + 1, |Ladder|)
            && t.command == Argv(plan, t.attempt) && t.run == encoder(i + 1)
            && t.reports == Progress(t.run, job.duration.value) && t.verdict == Judge(t.run, job.maxBytes)
            && t.attempt.scaleHeight <= SourceHeight(job.height) && t.attempt.scaleHeight <= Ladder[i].height
  {
    var plan := Prepare(job, dirs).plan;
    TrialAt(plan, Trials(plan, encoder), fs, i);
    TrialFields(plan, encoder, i);
  }

  /** The ladder stops at the first judged trial that decides it, and
      reports failure exactly when none does. */
  lemma StopsAtFirstDecidingTrial(plan: Plan, trials: seq<Trial>, fs: map<string, nat>)
    requires AllJudged(plan, trials)
    ensures var o := Attempts(plan, trials, 0, fs);
            (forall i :: 0 <= i < |o.trials| - 1 ==> !Decides(o.trials[i].run, plan.maxBytes))
            && (o.result.Done? && !o.result.ok <==> forall i :: 0 <= i < |o.trials| ==> !Decides(o.trials[i].run, plan.maxBytes))
            && (o.result.Done? && !o.result.ok ==> |o.trials| == |trials|)
  {
    var o := Attempts(plan, trials, 0, fs);
    AttemptsFollowLadder(plan, trials, 0, fs);
    NothingAfterDecisive(plan, trials, 0, fs);
    FailsIffNoneDecides(plan, trials, 0, fs);
    DoneNamesFinal(plan, trials, 0, fs);
    LastDecides(plan, trials, 0, fs);
    forall i | 0 <= i < |o.trials| ensures Decides(o.trials[i].run, plan.maxBytes) <==> Decisive(o.trials[i].verdict) {
      assert Judged(plan, trials[i]);
      DecidesIffDecisive(o.trials[i].run, plan.maxBytes);
    }
  }

  /** The job stops at the first run that decides it: every earlier run
      exited cleanly with a file missing, too small or too large, and the
      job reports failure exactly when no run decides, after all 8 rungs. */
  lemma StopsAtFirstDecidingRun(job: Job, dirs: set<string>, encoder: nat -> EncoderRun, fs: map<string, nat>)
    requires Prepare(job, dirs).Ready?
    ensures var o := CompressSpec(job, dirs, encoder, fs);
            (forall i :: 0 <= i < |o.trials| - 1 ==> !Decides(o.trials[i].run, job.maxBytes))
            && (o.result.Done? && !o.result.ok <==> forall i :: 0 <= i < |o.trials| ==> !Decides(o.trials[i].run, job.maxBytes))
            && (o.result.Done? && !o.result.ok ==> |o.trials| == |Ladder|)
  {
    var plan := Prepare(job, dirs).plan;
    LadderFiles(plan, encoder);
    StopsAtFirstDecidingTrial(plan, Trials(plan, encoder), fs);
  }

  /** The job never changes its input file. */
  lemma InputKept(job: Job, dirs: set<string>, encoder: nat -> EncoderRun, fs: map<string, nat>)
    ensures Same(fs, CompressSpec(job, dirs, encoder, fs).fs, job.input)
  {
    if Prepare(job, dirs).Ready? {
      var plan := Prepare(job, dirs).plan;
      var trials := Trials(plan, encoder);
      LadderFiles(plan, encoder);
      OthersUnchanged(plan, trials, 0, fs, Attempts(plan, trials, 0, fs), plan.input);
    }
  }

  /** A successful job leaves, at the path it reports, a file of between
      50000 bytes and the limit, whose size it reports in mebibytes. */
  lemma SuccessFits(job: Job, dirs: set<string>, encoder: nat -> EncoderRun, fs: map<string, nat>)
    ensures var o := CompressSpec(job, dirs, encoder, fs);
            o.result.Done? && o.result.ok ==>
              o.result.path in o.fs && MinOutputBytes <= o.fs[o.result.path] <= job.maxBytes
              && o.result.sizeMb == o.fs[o.result.path] as real / BytesPerMb
  {
    if Prepare(job, dirs).Ready? {
      var plan := Prepare(job, dirs).plan;
      var trials := Trials(plan, encoder);
      var o := Attempts(plan, trials, 0, fs);
      LadderFiles(plan, encoder);
      SuccessCommitted(plan, trials, 0, fs, o);
      DoneNamesFinal(plan, trials, 0, fs);
    }
  }

  /** Unless an encoder raised, no trial's temporary file survives the
      ladder. */
  lemma NoTrialTmpLeft(plan: Plan, trials: seq<Trial>, fs: map<string, nat>)
    requires SeparateFiles(plan, trials)
    ensures var o := Attempts(plan, trials, 0, fs);
            o.result.Done? ==> forall i :: 0 <= i < |o.trials| ==> o.trials[i].attempt.tmp !in o.fs
  {
    var o := Attempts(plan, trials, 0, fs);
    TmpFilesRemoved(plan, trials, 0, fs, o);
    AttemptsFollowLadder(plan, trials, 0, fs);
  }

  /** Unless an encoder raised, no temporary file of the job is left
      behind. */
  lemma NoTmpLeft(job: Job, dirs: set<string>, encoder: nat -> EncoderRun, fs: map<string, nat>)
    requires Prepare(job, dirs).Ready?
    ensures var o := CompressSpec(job, dirs, encoder, fs);
            o.result.Done? ==> forall i :: 0 <= i < |o.trials| ==> o.trials[i].attempt.tmp !in o.fs
  {
    var plan := Prepare(job, dirs).plan;
    LadderFiles(plan, encoder);
    NoTrialTmpLeft(plan, Trials(plan, encoder), fs);
  }
}
