/** The yt-dlp front end (core/services/youtube_service.py): how a quality
    label becomes a height, the yt-dlp command line for an MP3 or an MP4
    download, the run that hands every output line to a hook, and the
    recogniser of yt-dlp's `[download]  42.0%` progress lines. */
module YouTubeService {
  import opened Common
  import opened Argv
  import Paths

  // ---------------------------------------------------------------- quality

  /** `_height_from_quality`: the number in a label such as "720p" (blanks
      around it and every `p` in it ignored, case folded); whatever `int()`
      rejects gives 720. `None` is Python's `None`. */
  function HeightFromQuality(quality: Option<string>): int
  {
    match ParsePyInt(QualityNumber(quality))
    case Some(n) => n
    case None => 720
  }

  /** The text `_height_from_quality` hands to `int()`. */
  function QualityNumber(quality: Option<string>): string
  {
    RemoveAll(Lower(Strip(if quality.Some? then quality.value else "")), 'p')
  }

  /** "<n>p" and "<n>P" give n. */
  lemma HeightOfLabel(n: nat, suffix: string)
    requires suffix == "p" || suffix == "P"
    ensures HeightFromQuality(Some(NatToString(n) + suffix)) == n
  {
    LabelNumber(n, suffix);
    ParsePyIntOfNatToString(n);
  }

  lemma LabelNumber(n: nat, suffix: string)
    requires suffix == "p" || suffix == "P"
    ensures QualityNumber(Some(NatToString(n) + suffix)) == NatToString(n)
  {
    var d := NatToString(n);
    StripLabel(d, suffix);
    LowerLabel(d, suffix);
    DropP(d);
  }

  lemma StripLabel(d: string, suffix: string)
    requires |d| > 0 && AllDigits(d) && (suffix == "p" || suffix == "P")
    ensures Strip(d + suffix) == d + suffix
  {
    var s := d + suffix;
    assert s[|s| - 1] == suffix[0] && s[0] == d[0];
    StripUnchanged(s);
  }

  lemma DropP(d: string)
    requires AllDigits(d)
    ensures RemoveAll(d + "p", 'p') == d
  {
    assert Lacks(d, 'p');
    RemoveAllAppend(d, "p", 'p');
  }

  lemma LowerLabel(d: string, suffix: string)
    requires AllDigits(d) && (suffix == "p" || suffix == "P")
    ensures Lower(d + suffix) == d + "p"
  {
    var l := Lower(d + suffix);
    assert forall i :: 0 <= i < |d| ==> l[i] == d[i];
    assert l[|d|] == 'p';
  }

  /** A label without a digit, or no label at all, gives the default 720. */
  lemma HeightDefault(quality: Option<string>)
    requires quality.Some? ==> forall i :: 0 <= i < |quality.value| ==> !IsDigit(quality.value[i])
    ensures HeightFromQuality(quality) == 720
  {
    var s := if quality.Some? then quality.value else "";
    StripNoDigit(s);
    LowerNoDigit(Strip(s));
    RemoveAllNoDigit(Lower(Strip(s)), 'p');
    var q := QualityNumber(quality);
    if ParsePyInt(q).Some? {
      ParsePyIntNeedsDigit(q);
    }
  }

  lemma StripNoDigit(s: string)
    requires forall i :: 0 <= i < |s| ==> !IsDigit(s[i])
    ensures forall i :: 0 <= i < |Strip(s)| ==> !IsDigit(Strip(s)[i])
  {
    var a := TrimStart(s);
    var t := TrimEnd(a);
    assert t == Strip(s);
    forall i | 0 <= i < |t|
      ensures !IsDigit(t[i])
    {
      assert t[i] == a[i] == s[|s| - |a| + i];
    }
  }

  lemma LowerNoDigit(s: string)
    requires forall i :: 0 <= i < |s| ==> !IsDigit(s[i])
    ensures forall i :: 0 <= i < |Lower(s)| ==> !IsDigit(Lower(s)[i])
  {
  }

  // ---------------------------------------------------------------- progress lines

  const DownloadTag := "[download]"

  /** The end of the run of white space that starts at k. */
  function SpaceEnd(s: string, k: nat): (j: nat)
    requires k <= |s|
    ensures k <= j <= |s|
    ensures forall t :: k <= t < j ==> IsSpace(s[t])
    ensures j == |s| || !IsSpace(s[j])
    decreases |s| - k
  {
    if k < |s| && IsSpace(s[k]) then SpaceEnd(s, k + 1) else k
  }

  /** The end of the run of digits that starts at k. */
  function DigitEnd(s: string, k: nat): (j: nat)
    requires k <= |s|
    ensures k <= j <= |s|
    ensures forall t :: k <= t < j ==> IsDigit(s[t])
    ensures j == |s| || !IsDigit(s[j])
    decreases |s| - k
  {
    if k < |s| && IsDigit(s[k]) then DigitEnd(s, k + 1) else k
  }

  lemma {:induction false} SpaceEndIs(s: string, k: nat, j: nat)
    requires k <= j <= |s| && (forall t :: k <= t < j ==> IsSpace(s[t])) && (j == |s| || !IsSpace(s[j]))
    ensures SpaceEnd(s, k) == j
    decreases j - k
  {
    if k < j {
      SpaceEndIs(s, k + 1, j);
    }
  }

  lemma {:induction false} DigitEndIs(s: string, k: nat, j: nat)
    requires k <= j <= |s| && (forall t :: k <= t < j ==> IsDigit(s[t])) && (j == |s| || !IsDigit(s[j]))
    ensures DigitEnd(s, k) == j
    decreases j - k
  {
    if k < j {
      DigitEndIs(s, k + 1, j);
    }
  }

  /** The pattern `\[download\]\s+(\d{1,3}(?:\.\d+)?)%` matches
      `line[i..e + 1]`: the tag, white space `line[i + 10..b]`, one to three
      digits `line[b..c]`, then either `%` at e == c, or a point, the digits
      `line[c + 1..e]` and `%` at e. */
  predicate Matches(line: string, i: nat, b: nat, c: nat, e: nat)
  {
    i + |DownloadTag| < b < c <= b + 3 && c <= e < |line|
    && line[i..i + |DownloadTag|] == DownloadTag
    && (forall t :: i + |DownloadTag| <= t < b ==> IsSpace(line[t]))
    && (forall t :: b <= t < c ==> IsDigit(line[t]))
    && line[e] == '%'
    && (e == c || (c + 1 < e && line[c] == '.' && forall t :: c + 1 <= t < e ==> IsDigit(line[t])))
  }

  /** The number the captured group `line[b..e]` spells. */
  function Captured(line: string, b: nat, c: nat, e: nat): real
    requires b <= c <= e <= |line|
  {
    if e == c then DigitsValue(line[b..c]) as real else DecimalValue(line[b..c], line[c + 1..e])
  }

  /** The match of the pattern that starts at i, by following each run to
      its end: nothing shorter can be followed by what the pattern needs
      next. */
  function PercentAt(line: string, i: nat): Option<real>
    requires i <= |line|
  {
    var a := i + |DownloadTag|;
    if a > |line| || line[i..a] != DownloadTag then None
    else
      var b := SpaceEnd(line, a);
      var c := DigitEnd(line, b);
      if b == a || c == b || c - b > 3 || c == |line| then None
      else if line[c] == '%' then Some(DigitsValue(line[b..c]) as real)
      else if line[c] != '.' then None
      else
        var e := DigitEnd(line, c + 1);
        if e == c + 1 || e == |line| || line[e] != '%' then None
        else Some(DecimalValue(line[b..c], line[c + 1..e]))
  }

  lemma PercentAtSound(line: string, i: nat)
    requires i <= |line| && PercentAt(line, i).Some?
    ensures exists b, c, e :: Matches(line, i, b, c, e) && PercentAt(line, i).value == Captured(line, b, c, e)
  {
    var a := i + |DownloadTag|;
    var b := SpaceEnd(line, a);
    var c := DigitEnd(line, b);
    if line[c] == '%' {
      assert Matches(line, i, b, c, c);
    } else {
      var e := DigitEnd(line, c + 1);
      assert Matches(line, i, b, c, e);
    }
  }

  lemma PercentAtComplete(line: string, i: nat, b: nat, c: nat, e: nat)
    requires Matches(line, i, b, c, e)
    ensures PercentAt(line, i) == Some(Captured(line, b, c, e))
  {
    MatchEnds(line, i, b, c, e);
    if e == c {
      WholeAt(line, i, b, c);
    } else {
      FractionAt(line, i, b, c, e);
    }
  }

  /** Where a match's runs end, as `PercentAt` finds them. */
  lemma MatchEnds(line: string, i: nat, b: nat, c: nat, e: nat)
    requires Matches(line, i, b, c, e)
    ensures i + |DownloadTag| < b < c <= b + 3 && c <= e < |line|
    ensures line[i..i + |DownloadTag|] == DownloadTag && line[e] == '%'
    ensures SpaceEnd(line, i + |DownloadTag|) == b && DigitEnd(line, b) == c
    ensures e != c ==> c + 1 < e && line[c] == '.' && DigitEnd(line, c + 1) == e
  {
    SpaceEndIs(line, i + |DownloadTag|, b);
    DigitEndIs(line, b, c);
    if e != c {
      DigitEndIs(line, c + 1, e);
    }
  }

  lemma WholeAt(line: string, i: nat, b: nat, c: nat)
    requires i + |DownloadTag| < b < c <= b + 3 && c < |line|
    requires line[i..i + |DownloadTag|] == DownloadTag && line[c] == '%'
    requires SpaceEnd(line, i + |DownloadTag|) == b && DigitEnd(line, b) == c
    ensures PercentAt(line, i) == Some(DigitsValue(line[b..c]) as real)
  {
  }

  lemma FractionAt(line: string, i: nat, b: nat, c: nat, e: nat)
    requires i + |DownloadTag| < b < c <= b + 3 && c + 1 < e < |line|
    requires line[i..i + |DownloadTag|] == DownloadTag && line[c] == '.' && line[e] == '%'
    requires SpaceEnd(line, i + |DownloadTag|) == b && DigitEnd(line, b) == c && DigitEnd(line, c + 1) == e
    ensures PercentAt(line, i) == Some(DecimalValue(line[b..c], line[c + 1..e]))
  {
  }

  /** `re.search`: the leftmost position from i on where the pattern
      matches. */
  function SearchFrom(line: string, i: nat): Option<real>
    requires i <= |line|
    decreases |line| - i
  {
    if PercentAt(line, i).Some? then PercentAt(line, i)
    else if i == |line| then None
    else SearchFrom(line, i + 1)
  }

  /** `parse_progress_percent`. */
  function ParseProgressPercent(line: string): Option<real>
  {
    SearchFrom(line, 0)
  }

  /** The pattern matches at `i` exactly when `PercentAt` finds a number there. */
  lemma PercentAtIff(line: string, i: nat)
    requires i <= |line|
    ensures PercentAt(line, i).Some? <==> exists b, c, e :: Matches(line, i, b, c, e)
  {
    if PercentAt(line, i).Some? {
      PercentAtSound(line, i);
    } else if exists b, c, e :: Matches(line, i, b, c, e) {
      var b, c, e :| Matches(line, i, b, c, e);
      PercentAtComplete(line, i, b, c, e);
    }
  }

  lemma {:induction false} SearchIff(line: string, k: nat)
    requires k <= |line|
    ensures SearchFrom(line, k).Some? <==> exists i, b, c, e :: k <= i && Matches(line, i, b, c, e)
    decreases |line| - k
  {
    PercentAtIff(line, k);
    if PercentAt(line, k).Some? {
      SearchHere(line, k);
    } else if k < |line| {
      SearchIff(line, k + 1);
      SearchNext(line, k);
    } else {
      SearchEnd(line, k);
    }
  }

  lemma SearchHere(line: string, k: nat)
    requires k <= |line| && PercentAt(line, k).Some?
    requires exists b, c, e :: Matches(line, k, b, c, e)
    ensures SearchFrom(line, k).Some? && exists i, b, c, e :: k <= i && Matches(line, i, b, c, e)
  {
    var b, c, e :| Matches(line, k, b, c, e);
  }

  lemma SearchNext(line: string, k: nat)
    requires k < |line| && PercentAt(line, k).None?
    requires !exists b, c, e :: Matches(line, k, b, c, e)
    requires SearchFrom(line, k + 1).Some? <==> exists i, b, c, e :: k + 1 <= i && Matches(line, i, b, c, e)
    ensures SearchFrom(line, k).Some? <==> exists i, b, c, e :: k <= i && Matches(line, i, b, c, e)
  {
    if exists i, b, c, e :: k <= i && Matches(line, i, b, c, e) {
      var i, b, c, e :| k <= i && Matches(line, i, b, c, e);
      MatchAfter(line, k, i, b, c, e);
    }
  }

  lemma MatchAfter(line: string, k: nat, i: nat, b: nat, c: nat, e: nat)
    requires k <= i && Matches(line, i, b, c, e)
    requires !exists b', c', e' :: Matches(line, k, b', c', e')
    ensures k < i
  {
  }

  lemma SearchEnd(line: string, k: nat)
    requires k == |line| && PercentAt(line, k).None?
    ensures SearchFrom(line, k).None? && !exists i, b, c, e :: k <= i && Matches(line, i, b, c, e)
  {
  }

  lemma {:induction false} SearchLeftmost(line: string, k: nat, i: nat, b: nat, c: nat, e: nat)
    requires k <= i && Matches(line, i, b, c, e)
    requires forall j, b', c', e' :: k <= j < i ==> !Matches(line, j, b', c', e')
    ensures SearchFrom(line, k) == Some(Captured(line, b, c, e))
    decreases i - k
  {
    if k == i {
      PercentAtComplete(line, i, b, c, e);
    } else {
      if PercentAt(line, k).Some? {
        PercentAtSound(line, k);
      }
      SearchLeftmost(line, k + 1, i, b, c, e);
    }
  }

  /** A line is a progress line exactly when the pattern matches somewhere
      in it. */
  lemma ProgressLineIff(line: string)
    ensures ParseProgressPercent(line).Some? <==> exists i, b, c, e :: Matches(line, i, b, c, e)
  {
    SearchIff(line, 0);
  }

  /** The number reported is the one captured by the leftmost match. */
  lemma ProgressLineLeftmost(line: string, i: nat, b: nat, c: nat, e: nat)
    requires Matches(line, i, b, c, e)
    requires forall j, b', c', e' :: 0 <= j < i ==> !Matches(line, j, b', c', e')
    ensures ParseProgressPercent(line) == Some(Captured(line, b, c, e))
  {
    SearchLeftmost(line, 0, i, b, c, e);
  }

  /** The captured group is text `float()` accepts, and it reads as the
      number reported: the `except` branch is never taken. */
  lemma CapturedIsFloat(line: string, i: nat, b: nat, c: nat, e: nat)
    requires Matches(line, i, b, c, e)
    ensures ParsePyFloat(line[b..e]) == Some(Captured(line, b, c, e))
  {
    assert IsDigit(line[b]) && IsDigit(line[e - 1]);
    GroupUnsigned(line, b, e);
    if e == c {
      WholeGroup(line, b, c);
    } else {
      FractionGroup(line, b, c, e);
    }
  }

  lemma GroupUnsigned(line: string, b: nat, e: nat)
    requires b < e <= |line| && IsDigit(line[b]) && IsDigit(line[e - 1])
    ensures ParsePyFloat(line[b..e]) == ParseUnsignedDecimal(line[b..e])
  {
    var g := line[b..e];
    assert g[0] == line[b] && g[|g| - 1] == line[e - 1];
    StripUnchanged(g);
    UnsignedFloat(g);
  }

  lemma WholeGroup(line: string, b: nat, c: nat)
    requires b < c <= |line| && forall t :: b <= t < c ==> IsDigit(line[t])
    ensures ParseUnsignedDecimal(line[b..c]) == Some(DigitsValue(line[b..c]) as real)
  {
    assert AllDigits(line[b..c]);
    UnsignedDecimalOfDigits(line[b..c]);
  }

  lemma FractionGroup(line: string, b: nat, c: nat, e: nat)
    requires b < c && c + 1 < e <= |line| && line[c] == '.'
    requires forall t :: b <= t < c ==> IsDigit(line[t])
    requires forall t :: c + 1 <= t < e ==> IsDigit(line[t])
    ensures ParseUnsignedDecimal(line[b..e]) == Some(DecimalValue(line[b..c], line[c + 1..e]))
  {
    var g := line[b..e];
    var whole, frac := line[b..c], line[c + 1..e];
    assert g[..c - b] == whole && g[c - b + 1..] == frac;
    assert Lacks(whole, '.');
    IndexOfAt(g, '.', c - b);
    DigitsAreDigitPart(whole);
    DigitsAreDigitPart(frac);
    assert Lacks(whole, '_') && Lacks(frac, '_');
  }

  /** At most three digits before the point: a reported percentage is below
      1000. */
  lemma ProgressBound(line: string)
    ensures ParseProgressPercent(line).Some? ==> 0.0 <= ParseProgressPercent(line).value < 1000.0
  {
    SearchBound(line, 0);
  }

  lemma {:induction false} SearchBound(line: string, k: nat)
    requires k <= |line|
    ensures SearchFrom(line, k).Some? ==> 0.0 <= SearchFrom(line, k).value < 1000.0
    decreases |line| - k
  {
    if PercentAt(line, k).Some? {
      PercentAtBound(line, k);
    } else if k < |line| {
      SearchBound(line, k + 1);
    }
  }

  lemma PercentAtBound(line: string, i: nat)
    requires i <= |line| && PercentAt(line, i).Some?
    ensures 0.0 <= PercentAt(line, i).value < 1000.0
  {
    var b := SpaceEnd(line, i + |DownloadTag|);
    var c := DigitEnd(line, b);
    ShortDigits(line[b..c]);
  }

  lemma ShortDigits(s: string)
    requires |s| <= 3
    ensures DigitsValue(s) <= 999
  {
    var d1 := if |s| >= 1 then DigitsValue(s[..1]) else 0;
    if |s| >= 1 {
      assert s[..1][..0] == [];
    }
    if |s| >= 2 {
      assert s[..2][..1] == s[..1];
    }
    if |s| == 3 {
      assert s[..2] == s[..|s| - 1];
    }
  }

  // ---------------------------------------------------------------- commands

  const OutputTemplate := "%(title)s.%(ext)s"

  /** The `-f` selector of an MP4 download: three alternatives, tried in
      order. */
  function FormatSelector(height: int): string
  {
    MergedAlternative(height) + "/" + SingleAlternative(height) + "/" + "best"
  }

  /** MP4 video no higher than `height` merged with M4A audio. */
  function MergedAlternative(height: int): string
  {
    "bestvideo[ext=mp4][height<=" + IntToString(height) + "]+bestaudio[ext=m4a]"
  }

  /** A single MP4 file no higher than `height`. */
  function SingleAlternative(height: int): string
  {
    "best[ext=mp4][height<=" + IntToString(height) + "]"
  }

  /** yt-dlp reads the selector as exactly three alternatives: the merged
      MP4 download, the single MP4 file, and the best there is. */
  lemma FormatAlternatives(height: int)
    ensures SplitOn(FormatSelector(height), '/') == [MergedAlternative(height), SingleAlternative(height), "best"]
  {
    var h := IntToString(height);
    LacksAppend("bestvideo[ext=mp4][height<=", h, '/');
    LacksAppend("bestvideo[ext=mp4][height<=" + h, "]+bestaudio[ext=m4a]", '/');
    LacksAppend("best[ext=mp4][height<=", h, '/');
    LacksAppend("best[ext=mp4][height<=" + h, "]", '/');
    SplitOnThree(MergedAlternative(height), SingleAlternative(height), "best", '/');
  }

  /** The arguments of `download`'s yt-dlp command: audio extraction to MP3
      when `outputType` is exactly "mp3", an MP4 download otherwise. */
  function DownloadArgs(ytdlp: string, ffmpegLoc: string, outputType: string, height: int,
                        outTemplate: string, url: string): seq<Arg>
  {
    if outputType == "mp3" then
      [Word(ytdlp), Opt("--ffmpeg-location", ffmpegLoc), Word("-x"), Opt("--audio-format", "mp3"),
       Opt("--audio-quality", "0"), Opt("-o", outTemplate), Word(url)]
    else
      [Word(ytdlp), Opt("--ffmpeg-location", ffmpegLoc), Opt("-f", FormatSelector(height)),
       Opt("--merge-output-format", "mp4"), Opt("-o", outTemplate), Word(url)]
  }

  /** The command line `download` starts. */
  function DownloadCommand(ytdlp: string, ffmpegLoc: string, url: string, outDir: string,
                           height: int, outputType: string): seq<string>
  {
    Flatten(DownloadArgs(ytdlp, ffmpegLoc, outputType, height, Paths.Join(outDir, OutputTemplate), url))
  }

  /** Every download runs yt-dlp with the ffmpeg location, writes to
      `<outDir>/%(title)s.%(ext)s` and names the URL last. */
  lemma DownloadCommandCommon(ytdlp: string, ffmpegLoc: string, url: string, outDir: string,
                              height: int, outputType: string)
    ensures var cmd := DownloadCommand(ytdlp, ffmpegLoc, url, outDir, height, outputType);
      |cmd| > 0 && cmd[0] == ytdlp && cmd[|cmd| - 1] == url
      && Passes(cmd, "--ffmpeg-location", ffmpegLoc)
      && Passes(cmd, "-o", Paths.Join(outDir, OutputTemplate))
  {
    var args := DownloadArgs(ytdlp, ffmpegLoc, outputType, height, Paths.Join(outDir, OutputTemplate), url);
    FlattenPasses(args, 1);
    FlattenPasses(args, |args| - 2);
    FlattenLast(args, url);
  }

  /** An MP3 download extracts the audio at the best quality and asks for no
      video format. */
  lemma Mp3Command(ytdlp: string, ffmpegLoc: string, url: string, outDir: string, height: int)
    ensures var cmd := DownloadCommand(ytdlp, ffmpegLoc, url, outDir, height, "mp3");
      "-x" in cmd && Passes(cmd, "--audio-format", "mp3") && Passes(cmd, "--audio-quality", "0")
    ensures var args := DownloadArgs(ytdlp, ffmpegLoc, "mp3", height, Paths.Join(outDir, OutputTemplate), url);
      !HasOption(args, "-f") && !HasOption(args, "--merge-output-format")
  {
    var args := DownloadArgs(ytdlp, ffmpegLoc, "mp3", height, Paths.Join(outDir, OutputTemplate), url);
    FlattenWord(args, 2, "-x");
    FlattenPasses(args, 3);
    FlattenPasses(args, 4);
  }

  /** Any other output type downloads MP4 video with the selector built from
      the height and merges into MP4; it extracts no audio. */
  lemma Mp4Command(ytdlp: string, ffmpegLoc: string, url: string, outDir: string,
                   height: int, outputType: string)
    requires outputType != "mp3"
    ensures var cmd := DownloadCommand(ytdlp, ffmpegLoc, url, outDir, height, outputType);
      Passes(cmd, "-f", FormatSelector(height))
      && Passes(cmd, "--merge-output-format", "mp4")
    ensures var args := DownloadArgs(ytdlp, ffmpegLoc, outputType, height, Paths.Join(outDir, OutputTemplate), url);
      !HasOption(args, "--audio-format") && !HasOption(args, "--audio-quality")
  {
    var args := DownloadArgs(ytdlp, ffmpegLoc, outputType, height, Paths.Join(outDir, OutputTemplate), url);
    FlattenPasses(args, 2);
    FlattenPasses(args, 3);
  }

  // ---------------------------------------------------------------- running

  /** What the started process does, as seen by `download`: the lines of its
      merged stdout/stderr and its exit status, or `Popen` raising
      (`notFound` for `FileNotFoundError`, when yt-dlp itself is missing). */
  datatype Process = Ran(lines: seq<string>, returnCode: int) | SpawnFailed(notFound: bool, message: string)

  /** How `download` ends: it returns (with the command it ran, the lines its
      hook received and the success flag), or it raises. */
  datatype Outcome =
    | Completed(cmd: seq<string>, hooked: seq<string>, ok: bool)
    | Raised(notFound: bool, message: string)

  const MissingFfmpeg := "No encontré ffmpeg. Colocalo en ./ffmpeg/bin/ffmpeg.exe o en el PATH del sistema."

  /** The outcome of `download` once the height is known; `ffmpegLoc` is what
      `_resolve_ffmpeg_location` found, `hook` says whether a progress hook
      was given. */
  function DownloadOutcome(ytdlp: string, url: string, outDir: string, height: int,
                           outputType: string, hook: bool, ffmpegLoc: Option<string>,
                           process: Process): Outcome
  {
    if ffmpegLoc.None? then Raised(true, MissingFfmpeg)
    else match process
      case SpawnFailed(notFound, message) => Raised(notFound, message)
      case Ran(lines, code) =>
        Completed(DownloadCommand(ytdlp, ffmpegLoc.value, url, outDir, height, outputType),
                  if hook then lines else [], code == 0)
  }

  /** `download` reports success exactly when ffmpeg was found, yt-dlp
      started and exited with status 0; without ffmpeg it raises
      `FileNotFoundError` whatever yt-dlp would have done. */
  lemma DownloadSucceedsIff(ytdlp: string, url: string, outDir: string, height: int,
                            outputType: string, hook: bool, ffmpegLoc: Option<string>, process: Process)
    ensures var o := DownloadOutcome(ytdlp, url, outDir, height, outputType, hook, ffmpegLoc, process);
      (o.Completed? && o.ok) <==> (ffmpegLoc.Some? && process.Ran? && process.returnCode == 0)
    ensures ffmpegLoc.None? ==>
      DownloadOutcome(ytdlp, url, outDir, height, outputType, hook, ffmpegLoc, process)
      == Raised(true, MissingFfmpeg)
    ensures ffmpegLoc.Some? && process.Ran? && hook ==>
      DownloadOutcome(ytdlp, url, outDir, height, outputType, hook, ffmpegLoc, process).hooked
      == process.lines
  {
  }

  /** `download`: works out the height, then runs. */
  method Download(ytdlp: string, url: string, outDir: string, quality: Option<string>,
                  outputType: string, hook: bool, ffmpegLoc: Option<string>, process: Process)
    returns (o: Outcome)
    ensures o == DownloadOutcome(ytdlp, url, outDir, HeightFromQuality(quality), outputType, hook, ffmpegLoc,
                                 process)
  {
    var height := HeightFromQuality(quality);
    o := RunDownload(ytdlp, url, outDir, height, outputType, hook, ffmpegLoc, process);
  }

  /** The rest of `download`: refuses without ffmpeg, builds the command,
      starts it and hands every line it prints to the hook, in order. */
  method RunDownload(ytdlp: string, url: string, outDir: string, height: int,
                     outputType: string, hook: bool, ffmpegLoc: Option<string>, process: Process)
    returns (o: Outcome)
    ensures o == DownloadOutcome(ytdlp, url, outDir, height, outputType, hook, ffmpegLoc, process)
  {
    if ffmpegLoc.None? {
      return Raised(true, MissingFfmpeg);
    }
    var cmd := DownloadCommand(ytdlp, ffmpegLoc.value, url, outDir, height, outputType);
    match process {
      case SpawnFailed(notFound, message) =>
        return Raised(notFound, message);
      case Ran(lines, code) =>
        var hooked := FeedHook(lines, hook);
        o := Completed(cmd, hooked, code == 0);
    }
  }

  /** `for line in process.stdout: if progress_hook: progress_hook(line)`:
      the lines the hook receives. */
  method FeedHook(lines: seq<string>, hook: bool) returns (hooked: seq<string>)
    ensures hooked == if hook then lines else []
  {
    hooked := [];
    var k := 0;
    while k < |lines|
      invariant 0 <= k <= |lines|
      invariant hooked == if hook then lines[..k] else []
    {
      if hook {
        hooked := hooked + [lines[k]];
      }
      k := k + 1;
    }
    assert lines[..|lines|] == lines;
  }
}
