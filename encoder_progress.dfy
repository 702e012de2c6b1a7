/** The runner that drives one encoder process (`_run_ffmpeg_with_progress`):
    it reads the `key=value` progress stream the encoder writes to its standard
    output, turns time stamps into whole percentages, throttles what it
    reports, keeps the last lines of the diagnostic stream and turns a nonzero
    exit into an error. The process itself is an oracle value: the lines it
    prints, the clock reading taken as each progress line is handled, and how
    it exits. */
module EncoderProgress {
  import opened Common

  /** One line of the progress stream with the value `time.time()` returns
      while that line is handled. */
  datatype StampedLine = StampedLine(text: string, now: real)

  /** How the process ends once its progress stream is closed: with an exit
      code (on its own, or after being killed when the wait timed out), or not
      at all even after the kill. */
  datatype Exit = Exited(code: int) | Unreaped

  /** Everything the model needs to know about one encoder run. `output` is
      the size of the file the encoder leaves at its output path, if it
      writes one. */
  datatype EncoderRun = EncoderRun(stdout: seq<StampedLine>, stderr: seq<string>, exit: Exit, output: Option<nat>)

  /** What one progress line means to the runner. */
  datatype ProgressLine = OutTime(seconds: real) | End | Skip

  datatype Emission = Emission(percent: int, at: real)
  datatype ScanResult = ScanResult(emitted: seq<Emission>, ended: bool)

  datatype RunStatus = Succeeded | ExitFailure(code: int, tail: string) | Timeout
  datatype RunOutcome = RunOutcome(reports: seq<int>, waitBound: nat, status: RunStatus)

  const TailLines: nat := 80
  const TailChars: nat := 2000
  const MinEmitGap: real := 0.05

  // ---------------------------------------------------------------- one line

  /** A microsecond count (`out_time_ms=` and `out_time_us=` both carry
      microseconds). */
  function Microseconds(v: string): (p: ProgressLine)
    ensures !p.End?
  {
    match ParsePyInt(v)
    case Some(n) => OutTime(n as real / 1000000.0)
    case None => Skip
  }

  /** An `HH:MM:SS.frac` clock reading. */
  function ClockReading(v: string): (p: ProgressLine)
    ensures !p.End?
  {
    var parts := SplitOn(v, ':');
    if |parts| != 3 then Skip else ClockValue(ParsePyInt(parts[0]), ParsePyInt(parts[1]), ParsePyFloat(parts[2]))
  }

  /** The time a clock reading stands for, once its three fields are read. */
  function ClockValue(h: Option<int>, m: Option<int>, s: Option<real>): (p: ProgressLine)
    ensures !p.End?
  {
    if h.Some? && m.Some? && s.Some? then OutTime((h.value * 3600 + m.value * 60) as real + s.value) else Skip
  }

  function ClassifyLine(raw: string): (p: ProgressLine)
    ensures p.End? <==> Strip(raw) == "progress=end"
  {
    var line := Strip(raw);
    if StartsWith(line, "out_time_ms=") then
      assert line[0] == 'o';
      Microseconds(line[12..])
    else if StartsWith(line, "out_time_us=") then
      assert line[0] == 'o';
      Microseconds(line[12..])
    else if StartsWith(line, "out_time=") then
      assert line[0] == 'o';
      ClockReading(line[9..])
    else if line == "progress=end" then End
    else Skip
  }

  lemma ClassifyMicroseconds(line: string)
    requires Strip(line) == line
    requires StartsWith(line, "out_time_ms=") || StartsWith(line, "out_time_us=")
    ensures ClassifyLine(line) == Microseconds(line[12..])
  {
  }

  lemma MicrosecondLine(key: string, n: nat)
    requires key == "out_time_ms=" || key == "out_time_us="
    ensures ClassifyLine(key + NatToString(n)) == OutTime(n as real / 1000000.0)
  {
    var digits := NatToString(n);
    var line := key + digits;
    assert line[0] == 'o' && line[|line| - 1] == digits[|digits| - 1];
    StripUnchanged(line);
    assert line[..12] == key && line[12..] == digits;
    ClassifyMicroseconds(line);
    assert ClassifyLine(line) == Microseconds(digits);
    ParsePyIntOfNatToString(n);
  }

  function Colon3(h: nat, m: nat, s: nat): string
  {
    NatToString(h) + [':'] + (NatToString(m) + [':'] + NatToString(s))
  }

  lemma SplitColon3(h: nat, m: nat, s: nat)
    ensures SplitOn(Colon3(h, m, s), ':') == [NatToString(h), NatToString(m), NatToString(s)]
  {
    var a, b, c := NatToString(h), NatToString(m), NatToString(s);
    assert Lacks(a, ':') && Lacks(b, ':') && Lacks(c, ':');
    SplitOnCons(a, ':', b + [':'] + c);
    SplitOnCons(b, ':', c);
  }

  lemma ClockReadingSplit(v: string, a: string, b: string, c: string)
    requires SplitOn(v, ':') == [a, b, c]
    ensures ClockReading(v) == ClockValue(ParsePyInt(a), ParsePyInt(b), ParsePyFloat(c))
  {
  }

  lemma ClockValueOf(x: Option<int>, y: Option<int>, z: Option<real>, h: int, m: int, s: real)
    requires x == Some(h) && y == Some(m) && z == Some(s)
    ensures ClockValue(x, y, z) == OutTime((h * 3600 + m * 60) as real + s)
  {
  }

  lemma ClockFieldsOfColon3(h: nat, m: nat, s: nat)
    ensures ClockReading(Colon3(h, m, s)) == ClockValue(ParsePyInt(NatToString(h)), ParsePyInt(NatToString(m)), ParsePyFloat(NatToString(s)))
  {
    SplitColon3(h, m, s);
    ClockReadingSplit(Colon3(h, m, s), NatToString(h), NatToString(m), NatToString(s));
  }

  lemma ClockValueOfDigits(h: nat, m: nat, s: nat)
    ensures ClockValue(ParsePyInt(NatToString(h)), ParsePyInt(NatToString(m)), ParsePyFloat(NatToString(s)))
            == OutTime((h * 3600 + m * 60) as real + s as real)
  {
    ParsePyIntOfNatToString(h);
    ParsePyIntOfNatToString(m);
    ParsePyFloatOfNatToString(s);
    ClockValueOf(ParsePyInt(NatToString(h)), ParsePyInt(NatToString(m)), ParsePyFloat(NatToString(s)), h, m, s as real);
  }

  /** A clock reading of whole hours, minutes and seconds is that many
      seconds. */
  lemma ClockReadingOfColon3(h: nat, m: nat, s: nat)
    ensures ClockReading(Colon3(h, m, s)) == OutTime((h * 3600 + m * 60) as real + s as real)
  {
    ClockFieldsOfColon3(h, m, s);
    ClockValueOfDigits(h, m, s);
  }

  lemma ClassifyClock(line: string)
    requires Strip(line) == line && |line| >= 9 && line[..9] == "out_time="
    ensures ClassifyLine(line) == ClockReading(line[9..])
  {
    assert line[8] == '=';
    assert !StartsWith(line, "out_time_ms=") by {
      if |line| >= 12 { assert line[..12][8] == line[8]; }
    }
    assert !StartsWith(line, "out_time_us=") by {
      if |line| >= 12 { assert line[..12][8] == line[8]; }
    }
  }

  /** An `out_time=` line written with whole seconds reads back as the number
      of seconds it spells. */
  lemma ClockLine(h: nat, m: nat, s: nat)
    ensures ClassifyLine("out_time=" + Colon3(h, m, s)) == OutTime((h * 3600 + m * 60) as real + s as real)
  {
    var line := "out_time=" + Colon3(h, m, s);
    var v := NatToString(s);
    assert line[|line| - 1] == v[|v| - 1];
    StripUnchanged(line);
    assert line[..9] == "out_time=" && line[9..] == Colon3(h, m, s);
    ClassifyClock(line);
    ClockReadingOfColon3(h, m, s);
  }

  /** Whole percent done, as `int(min(100, max(0, t / max(d, 0.001) * 100)))`. */
  function Percent(outTime: real, duration: real): (p: int)
    ensures 0 <= p <= 100
  {
    var d := if duration > 0.001 then duration else 0.001;
    var ratio := outTime / d * 100.0;
    var clamped := if ratio < 0.0 then 0.0 else if ratio > 100.0 then 100.0 else ratio;
    clamped.Floor
  }

  lemma {:induction false} PercentMonotone(t1: real, t2: real, duration: real)
    requires t1 <= t2
    ensures Percent(t1, duration) <= Percent(t2, duration)
  {
    var d := if duration > 0.001 then duration else 0.001;
    DivMonotone(t1, t2, d);
  }

  lemma DivMonotone(a: real, b: real, d: real)
    requires a <= b && d > 0.0
    ensures a / d * 100.0 <= b / d * 100.0
  {
    assert (a / d) * d == a && (b / d) * d == b;
  }

  /** The encoder reaching the whole duration reads as 100 percent; a time at
      or before zero is 0 percent. */
  lemma RatioAtLeastOne(x: real, d: real)
    requires d > 0.0 && x >= d
    ensures x / d >= 1.0
  {
    assert (x / d) * d == x;
  }

  lemma RatioNonPositive(x: real, d: real)
    requires d > 0.0 && x <= 0.0
    ensures x / d <= 0.0
  {
    assert -(x / d) == (-x) / d;
  }

  lemma PercentEnds(outTime: real, duration: real)
    requires duration > 0.001
    ensures outTime >= duration ==> Percent(outTime, duration) == 100
    ensures outTime <= 0.0 ==> Percent(outTime, duration) == 0
  {
    if outTime >= duration {
      RatioAtLeastOne(outTime, duration);
    }
    if outTime <= 0.0 {
      RatioNonPositive(outTime, duration);
    }
  }

  // ---------------------------------------------------------------- the stream

  predicate Throttled(e: seq<Emission>, lastEmit: int, lastTime: real)
  {
    (forall k :: 0 <= k < |e| - 1 ==> e[k].percent != e[k + 1].percent && e[k + 1].at - e[k].at > MinEmitGap)
    && (|e| > 0 ==> e[0].percent != lastEmit && e[0].at - lastTime > MinEmitGap)
  }

  /** A progress line as the read loop sees it: whether it is empty (which
      ends the loop), what it means, and the clock reading taken for it. */
  datatype Seen = Seen(empty: bool, kind: ProgressLine, now: real)

  function Look(line: StampedLine): Seen
  {
    Seen(line.text == [], ClassifyLine(line.text), line.now)
  }

  function See(lines: seq<StampedLine>): (r: seq<Seen>)
    ensures |r| == |lines| && forall i :: 0 <= i < |lines| ==> r[i] == Look(lines[i])
  {
    seq(|lines|, i requires 0 <= i < |lines| => Look(lines[i]))
  }

  /** The emissions the read loop makes from line `i` onward, given the last
      percentage it emitted and when, and whether it saw `progress=end`. It
      stops at an empty line, at `progress=end` or at the end of the stream. */
  function Scan(lines: seq<Seen>, i: nat, duration: real, lastEmit: int, lastTime: real): (r: ScanResult)
    requires i <= |lines|
    ensures forall k :: 0 <= k < |r.emitted| ==> 0 <= r.emitted[k].percent <= 100
    ensures Throttled(r.emitted, lastEmit, lastTime)
    decreases |lines| - i
  {
    if i == |lines| || lines[i].empty then ScanResult([], false)
    else
      var k := lines[i].kind;
      if k.End? then ScanResult([], true)
      else if Emits(k, lines[i].now, duration, lastEmit, lastTime) then
        var pct := Percent(k.seconds, duration);
        var rest := Scan(lines, i + 1, duration, pct, lines[i].now);
        ScanResult([Emission(pct, lines[i].now)] + rest.emitted, rest.ended)
      else Scan(lines, i + 1, duration, lastEmit, lastTime)
  }

  /** Whether a line is one the runner reports: a time stamp whose percentage
      differs from the last one reported, more than 0.05 s after it. */
  predicate Emits(k: ProgressLine, now: real, duration: real, lastEmit: int, lastTime: real)
  {
    k.OutTime? && Percent(k.seconds, duration) != lastEmit && now - lastTime > MinEmitGap
  }

  /** The read loop reports completion only after a `progress=end` line. */
  lemma {:induction false} EndedOnlyAfterEnd(lines: seq<Seen>, i: nat, duration: real, lastEmit: int, lastTime: real)
    requires i <= |lines| && Scan(lines, i, duration, lastEmit, lastTime).ended
    ensures exists j :: i <= j < |lines| && lines[j].kind.End?
    decreases |lines| - i
  {
    var k := lines[i].kind;
    if !k.End? {
      if Emits(k, lines[i].now, duration, lastEmit, lastTime) {
        EndedOnlyAfterEnd(lines, i + 1, duration, Percent(k.seconds, duration), lines[i].now);
      } else {
        EndedOnlyAfterEnd(lines, i + 1, duration, lastEmit, lastTime);
      }
    }
  }

  /** When the first line from `i` on that is empty or `progress=end` is a
      `progress=end` at `j`, the read ends there: it reports completion and
      never looks at a line after `j`. */
  lemma {:induction false} ScanStopsAtEnd(lines: seq<Seen>, i: nat, j: nat, duration: real, lastEmit: int, lastTime: real)
    requires i <= j < |lines| && !lines[j].empty && lines[j].kind.End?
    requires forall m :: i <= m < j ==> !lines[m].empty && !lines[m].kind.End?
    ensures Scan(lines, i, duration, lastEmit, lastTime).ended
    ensures Scan(lines, i, duration, lastEmit, lastTime) == Scan(lines[..j + 1], i, duration, lastEmit, lastTime)
    decreases j - i
  {
    var head := lines[..j + 1];
    assert head[i] == lines[i];
    if i < j {
      var k := lines[i].kind;
      if Emits(k, lines[i].now, duration, lastEmit, lastTime) {
        ScanStopsAtEnd(lines, i + 1, j, duration, Percent(k.seconds, duration), lines[i].now);
      } else {
        ScanStopsAtEnd(lines, i + 1, j, duration, lastEmit, lastTime);
      }
    }
  }

  /** A `progress=end` line anywhere in the stream, with no empty line and no
      earlier `progress=end` before it, ends the read with 100 reported, and
      the lines after it are never read. */
  lemma EndStopsRead(lines: seq<StampedLine>, j: nat, duration: real, lastEmit: int, lastTime: real)
    requires j < |lines| && Strip(lines[j].text) == "progress=end"
    requires forall m :: 0 <= m < j ==> lines[m].text != [] && Strip(lines[m].text) != "progress=end"
    ensures Scan(See(lines), 0, duration, lastEmit, lastTime).ended
    ensures Scan(See(lines), 0, duration, lastEmit, lastTime) == Scan(See(lines[..j + 1]), 0, duration, lastEmit, lastTime)
    ensures Reports(Scan(See(lines), 0, duration, lastEmit, lastTime))[
              |Reports(Scan(See(lines), 0, duration, lastEmit, lastTime))| - 1] == 100
  {
    SeenUpToEnd(lines, j);
    ScanStopsAtEnd(See(lines), 0, j, duration, lastEmit, lastTime);
    SeePrefix(lines, j + 1);
    EndedLastReport(Scan(See(lines), 0, duration, lastEmit, lastTime));
  }

  lemma SeenUpToEnd(lines: seq<StampedLine>, j: nat)
    requires j < |lines| && Strip(lines[j].text) == "progress=end"
    requires forall m :: 0 <= m < j ==> lines[m].text != [] && Strip(lines[m].text) != "progress=end"
    ensures !See(lines)[j].empty && See(lines)[j].kind.End?
    ensures forall m :: 0 <= m < j ==> !See(lines)[m].empty && !See(lines)[m].kind.End?
  {
    assert lines[j].text != [];
  }

  lemma SeePrefix(lines: seq<StampedLine>, n: nat)
    requires n <= |lines|
    ensures See(lines)[..n] == See(lines[..n])
  {
  }

  lemma EndedLastReport(r: ScanResult)
    requires r.ended
    ensures Reports(r)[|Reports(r)| - 1] == 100
  {
    assert Reports(r) == [0] + Percents(r.emitted) + [100];
  }

  /** Lines the runner does not understand change nothing. */
  lemma SkippedLine(lines: seq<StampedLine>, i: nat, duration: real, lastEmit: int, lastTime: real)
    requires i < |lines| && lines[i].text != [] && ClassifyLine(lines[i].text).Skip?
    ensures Scan(See(lines), i, duration, lastEmit, lastTime) == Scan(See(lines), i + 1, duration, lastEmit, lastTime)
  {
  }

  function Percents(e: seq<Emission>): (p: seq<int>)
    ensures |p| == |e| && forall k :: 0 <= k < |e| ==> p[k] == e[k].percent
  {
    seq(|e|, k requires 0 <= k < |e| => e[k].percent)
  }

  /** Everything passed to the progress callback in one run: the opening 0,
      the throttled emissions, and 100 if `progress=end` was read. */
  function Reports(s: ScanResult): (r: seq<int>)
    ensures |r| >= 1 && r[0] == 0
  {
    [0] + Percents(s.emitted) + (if s.ended then [100] else [])
  }

  lemma ReportsInRange(seen: seq<Seen>, duration: real)
    ensures var r := Reports(Scan(seen, 0, duration, -1, 0.0));
            forall k :: 0 <= k < |r| ==> 0 <= r[k] <= 100
  {
  }

  lemma EndedReportsHundred(seen: seq<Seen>, duration: real)
    requires Scan(seen, 0, duration, -1, 0.0).ended
    ensures var r := Reports(Scan(seen, 0, duration, -1, 0.0));
            |r| >= 2 && r[|r| - 1] == 100
  {
  }

  /** How long the runner waits for the process once the stream is closed. */
  function WaitBound(ended: bool): (seconds: nat)
    ensures ended ==> seconds == 10
    ensures !ended ==> seconds == 600
  {
    if ended then 10 else 600
  }

  // ---------------------------------------------------------------- diagnostics

  /** How many lines the drain reads: up to the first empty one. */
  function StopAt(lines: seq<string>): (n: nat)
    ensures n <= |lines|
    ensures forall k :: 0 <= k < n ==> lines[k] != []
    ensures n < |lines| ==> lines[n] == []
  {
    if lines == [] || lines[0] == [] then 0 else 1 + StopAt(lines[1..])
  }

  function Trimmed(lines: seq<string>, n: nat): (r: seq<string>)
    requires n <= |lines|
    ensures |r| == n && forall k :: 0 <= k < n ==> r[k] == TrimNewlines(lines[k])
  {
    seq(n, k requires 0 <= k < n => TrimNewlines(lines[k]))
  }

  lemma TrimmedSnoc(lines: seq<string>, i: nat)
    requires i < |lines|
    ensures Trimmed(lines, i + 1) == Trimmed(lines, i) + [TrimNewlines(lines[i])]
  {
  }

  /** A bounded deque: appending to the last `n` and dropping the oldest when
      there are more than `n` keeps the last `n`. */
  lemma KeepLast<T>(s: seq<T>, x: T, n: nat)
    requires n > 0
    ensures var t := LastN(s, n) + [x];
            LastN(s + [x], n) == if |t| > n then t[1..] else t
  {
    var t := LastN(s, n) + [x];
    if |s| + 1 > n {
      assert (s + [x])[|s| + 1 - n..] == s[|s| + 1 - n..] + [x];
      if |s| > n {
        assert s[|s| - n..][1..] == s[|s| + 1 - n..];
      }
    }
  }

  /** The diagnostic lines the drain keeps: the last 80 of those before the
      first empty one, without their trailing newlines. */
  function KeptLines(lines: seq<string>): seq<string>
  {
    LastN(Trimmed(lines, StopAt(lines)), TailLines)
  }

  /** The diagnostic lines the drain keeps: the last 80 it read, each without
      its trailing newlines (a `deque(maxlen=80)`). */
  method DrainStderr(lines: seq<string>) returns (tail: seq<string>)
    ensures |tail| <= TailLines
    ensures tail == KeptLines(lines)
  {
    tail := [];
    var i := 0;
    ghost var stop := StopAt(lines);
    while i < |lines| && lines[i] != []
      invariant 0 <= i <= stop
      invariant tail == LastN(Trimmed(lines, i), TailLines)
    {
      TrimmedSnoc(lines, i);
      KeepLast(Trimmed(lines, i), TrimNewlines(lines[i]), TailLines);
      tail := tail + [TrimNewlines(lines[i])];
      if |tail| > TailLines {
        tail := tail[1..];
      }
      i := i + 1;
    }
    assert i == stop;
  }

  /** The text quoted in the failure message: the kept lines joined by
      newlines, cut to the last 2000 characters. */
  function ErrorTail(stderr: seq<string>): (t: string)
    ensures var joined := JoinWith(KeptLines(stderr), "\n");
            |t| == (if |joined| <= TailChars then |joined| else TailChars) && t == joined[|joined| - |t|..]
  {
    LastN(JoinWith(KeptLines(stderr), "\n"), TailChars)
  }

  // ---------------------------------------------------------------- one run

  function Status(exit: Exit, stderr: seq<string>): (s: RunStatus)
    ensures s.Succeeded? <==> exit == Exited(0)
    ensures s.ExitFailure? <==> exit.Exited? && exit.code != 0
    ensures s.ExitFailure? ==> s.code == exit.code && s.tail == ErrorTail(stderr)
  {
    match exit
    case Unreaped => Timeout
    case Exited(c) => if c != 0 then ExitFailure(c, ErrorTail(stderr)) else Succeeded
  }

  /** What one encoder run amounts to. */
  function RunSpec(run: EncoderRun, duration: real): RunOutcome
  {
    var s := Scan(See(run.stdout), 0, duration, -1, 0.0);
    RunOutcome(Reports(s), WaitBound(s.ended), Status(run.exit, run.stderr))
  }

  /** The percentages one run passes to the progress callback. */
  function Progress(run: EncoderRun, duration: real): seq<int>
  {
    RunSpec(run, duration).reports
  }

  lemma PercentsCons(e: Emission, rest: seq<Emission>)
    ensures Percents([e] + rest) == [e.percent] + Percents(rest)
  {
  }

  /** The read loop of the runner: handles the progress lines in order,
      reporting as it goes, until an empty line, `progress=end` or the end of
      the stream. */
  method ReadProgress(seen: seq<Seen>, duration: real) returns (reports: seq<int>, ended: bool)
    ensures reports == Reports(Scan(seen, 0, duration, -1, 0.0))
    ensures ended == Scan(seen, 0, duration, -1, 0.0).ended
  {
    reports := [0];
    ended := false;
    var lastEmit := -1;
    var lastTime := 0.0;
    ghost var full := Scan(seen, 0, duration, -1, 0.0);
    var i := 0;
    while i < |seen|
      invariant 0 <= i <= |seen|
      invariant reports + Percents(Scan(seen, i, duration, lastEmit, lastTime).emitted) == [0] + Percents(full.emitted)
      invariant Scan(seen, i, duration, lastEmit, lastTime).ended == full.ended
    {
      var here := seen[i];
      if here.empty {
        break;
      }
      if here.kind.End? {
        reports := reports + [100];
        ended := true;
        return;
      }
      if Emits(here.kind, here.now, duration, lastEmit, lastTime) {
        var pct := Percent(here.kind.seconds, duration);
        PercentsCons(Emission(pct, here.now), Scan(seen, i + 1, duration, pct, here.now).emitted);
        reports := reports + [pct];
        lastEmit := pct;
        lastTime := here.now;
      }
      i := i + 1;
    }
  }

  /** Runs one encoder process: reads its progress stream, waits for it to
      exit and fails on a nonzero exit code. */
  method RunWithProgress(run: EncoderRun, duration: real) returns (o: RunOutcome)
    ensures o == RunSpec(run, duration)
    ensures o.reports == Progress(run, duration) && o.status == Status(run.exit, run.stderr)
    ensures |o.reports| >= 1 && o.reports[0] == 0
    ensures forall k :: 0 <= k < |o.reports| ==> 0 <= o.reports[k] <= 100
    ensures o.status.Succeeded? <==> run.exit == Exited(0)
  {
    var reports, ended := ReadProgress(See(run.stdout), duration);
    ReportsInRange(See(run.stdout), duration);
    var tail := DrainStderr(run.stderr);
    var bound := WaitBound(ended);
    var status: RunStatus;
    match run.exit {
      case Unreaped => status := Timeout;
      case Exited(c) =>
        if c != 0 {
          status := ExitFailure(c, LastN(JoinWith(tail, "\n"), TailChars));
        } else {
          status := Succeeded;
        }
    }
    o := RunOutcome(reports, bound, status);
  }
}
