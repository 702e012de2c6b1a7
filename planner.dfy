/** The arithmetic and the strings of the size-budget compressor
    (`compress_to_discord_10mb`): the byte target, the total bitrate, the
    eight-rung ladder, the audio/video split of one rung, the scale filter, the
    encoder command line and the names of the files it writes. */
module SizeBudget {
  import opened Common

  /** The clamp on the total bitrate, in bits per second. */
  const MinTotalBps: int := 180000
  const MaxTotalBps: int := 6000000
  /** The height assumed when the resolution probe gives nothing usable. */
  const DefaultSourceHeight: int := 2160
  /** The video floor of a normal split and of a low-total split. */
  const VideoFloor: int := 120000
  const LowVideoFloor: int := 100000
  /** A total below the rung's audio plus this headroom is a low total. */
  const LowHeadroom: int := 140000
  const LowAudioCap: int := 32000

  // ---------------------------------------------------------------- budget

  /** `int(max_bytes * 0.94)`: the byte target, 6 % under the limit. */
  function TargetBytes(maxBytes: int): (t: int)
    ensures maxBytes >= 0 ==> 0 <= t <= maxBytes
    ensures maxBytes >= 0 ==> t as real <= maxBytes as real * 0.94 < (t + 1) as real
  {
    Trunc(maxBytes as real * 0.94)
  }

  /** `max(duration, 0.25)`: the seconds the budget is spread over. */
  function BudgetSeconds(duration: real): (d: real)
    ensures d >= 0.25 && d >= duration
    ensures duration >= 0.25 ==> d == duration
    ensures duration < 0.25 ==> d == 0.25
  {
    if 0.25 > duration then 0.25 else duration
  }

  /** `int(target_bytes * 8 / max(duration, 0.25))`, before the clamp. */
  function RawTotalBps(targetBytes: int, duration: real): int
  {
    Trunc((targetBytes * 8) as real / BudgetSeconds(duration))
  }

  /** The total bitrate, clamped to [180 000, 6 000 000]. */
  function TotalBps(targetBytes: int, duration: real): (r: int)
    ensures MinTotalBps <= r <= MaxTotalBps
    ensures var raw := RawTotalBps(targetBytes, duration);
            (MinTotalBps <= raw <= MaxTotalBps ==> r == raw)
            && (raw < MinTotalBps ==> r == MinTotalBps)
            && (raw > MaxTotalBps ==> r == MaxTotalBps)
  {
    var raw := RawTotalBps(targetBytes, duration);
    if raw > MaxTotalBps then MaxTotalBps else if raw < MinTotalBps then MinTotalBps else raw
  }

  /** Unless the lower clamp lifts it, the total bitrate spread over the
      budget seconds never asks for more bits than the target holds, and
      within the clamp it is the largest whole rate that does not. */
  lemma BudgetWithinTarget(targetBytes: int, duration: real)
    requires targetBytes >= 0
    ensures var d := BudgetSeconds(duration);
            var r := TotalBps(targetBytes, duration);
            (RawTotalBps(targetBytes, duration) >= MinTotalBps ==> r as real * d <= (targetBytes * 8) as real)
            && (MinTotalBps <= RawTotalBps(targetBytes, duration) <= MaxTotalBps ==> (targetBytes * 8) as real < (r + 1) as real * d)
  {
    var d := BudgetSeconds(duration);
    var b := (targetBytes * 8) as real;
    FloorBracket(b, d);
    var raw := RawTotalBps(targetBytes, duration);
    assert raw == (b / d).Floor;
    var r := TotalBps(targetBytes, duration);
    if raw >= MinTotalBps {
      MulMonotone(r as real, raw as real, d);
    }
  }

  /** A longer clip never gets a higher total bitrate. */
  lemma TotalBpsAntitone(targetBytes: int, d1: real, d2: real)
    requires targetBytes >= 0 && d1 <= d2
    ensures TotalBps(targetBytes, d2) <= TotalBps(targetBytes, d1)
  {
    var b := (targetBytes * 8) as real;
    var s1 := BudgetSeconds(d1);
    var s2 := BudgetSeconds(d2);
    DivAntitone(b, s1, s2);
  }

  // ---------------------------------------------------------------- ladder

  /** One rung: the height to scale to, the audio bitrate (0: no audio) and
      an extra filter. */
  datatype Rung = Rung(height: int, audio: int, extra: Option<string>)

  const Ladder: seq<Rung> := [
    Rung(720, 64000, None),
    Rung(720, 48000, None),
    Rung(480, 48000, None),
    Rung(360, 32000, None),
    Rung(360, 24000, Some("fps=24")),
    Rung(240, 24000, Some("fps=24")),
    Rung(240, 24000, Some("fps=10")),
    Rung(240, 0, Some("fps=10"))
  ]

  /** The ladder has eight rungs, each giving up at least as much as the one
      before: heights and audio bitrates never rise, only the last rung drops
      the audio, and extra filters are plain `fps=` filters. */
  lemma LadderShape()
    ensures |Ladder| == 8
    ensures forall i, j :: 0 <= i <= j < |Ladder| ==> Ladder[j].height <= Ladder[i].height && Ladder[j].audio <= Ladder[i].audio
    ensures forall i :: 0 <= i < |Ladder| ==> Ladder[i].height > 0 && (Ladder[i].audio == 0 <==> i == |Ladder| - 1)
    ensures forall i :: 0 <= i < |Ladder| && Ladder[i].extra.Some? ==> StartsWith(Ladder[i].extra.value, "fps=") && Lacks(Ladder[i].extra.value, ',')
  {
  }

  /** The source height used to avoid upscaling: the probed one, or 2160
      when the probe gives none or a non-positive one. */
  function SourceHeight(probed: Option<int>): (h: int)
    ensures h > 0
    ensures probed.Some? && probed.value > 0 ==> h == probed.value
    ensures probed.None? || probed.value <= 0 ==> h == DefaultSourceHeight
  {
    if probed.None? || probed.value <= 0 then DefaultSourceHeight else probed.value
  }

  /** `min(in_h, target_h)`. */
  function ScaleHeight(sourceHeight: int, target: int): (h: int)
    ensures h <= sourceHeight && h <= target
    ensures h == sourceHeight || h == target
  {
    if sourceHeight < target then sourceHeight else target
  }

  /** The bitrates one rung asks the encoder for. */
  datatype Split = Split(audio: int, video: nat)

  /** The audio/video split of the total for a rung with `audio` bits per
      second of sound. */
  function SplitBitrate(total: int, audio: int): (s: Split)
    ensures s.video >= LowVideoFloor
    ensures s.audio <= audio && (s.audio > 0 <==> audio > 0)
    ensures !(audio > 0 && total < audio + LowHeadroom) ==> s.audio == audio && s.video >= VideoFloor
    ensures audio > 0 && total < audio + LowHeadroom ==> s.audio <= LowAudioCap
  {
    var v := total - audio;
    var v := if v > VideoFloor then v else VideoFloor;
    if audio > 0 && total < audio + LowHeadroom then
      var a := if audio < LowAudioCap then audio else LowAudioCap;
      var v := if total - a > LowVideoFloor then total - a else LowVideoFloor;
      Split(a, v)
    else Split(audio, v)
  }

  /** Once the total is clamped, no floor ever binds for a ladder rung:
      the split hands out exactly the total. */
  lemma SplitIsExact(total: int, audio: int)
    requires total >= MinTotalBps && 0 <= audio <= 64000
    ensures SplitBitrate(total, audio).audio + SplitBitrate(total, audio).video == total
  {
  }

  // ---------------------------------------------------------------- strings

  /** The `-vf` argument: `scale=-2:{h}`, then `,{extra}` when there is a
      non-empty extra filter. */
  function VideoFilter(height: nat, extra: Option<string>): (vf: string)
    ensures StartsWith(vf, "scale=-2:")
  {
    var scale := "scale=-2:" + NatToString(height);
    if extra.Some? && extra.value != [] then scale + "," + extra.value else scale
  }

  /** The filter reads back as its parts: the scale with the height, and the
      extra filter when there is one. */
  lemma VideoFilterParts(height: nat, extra: Option<string>)
    requires extra.Some? ==> Lacks(extra.value, ',')
    ensures var parts := SplitOn(VideoFilter(height, extra), ',');
            |parts| == (if extra.Some? && extra.value != [] then 2 else 1)
            && StartsWith(parts[0], "scale=-2:")
            && ParsePyInt(parts[0][9..]) == Some(height)
            && (|parts| == 2 ==> parts[1] == extra.value)
  {
    var scale := "scale=-2:" + NatToString(height);
    assert Lacks(NatToString(height), ',');
    assert Lacks(scale, ',') by {
      forall i | 0 <= i < |scale| ensures scale[i] != ',' {
        if i >= 9 {
          assert scale[i] == NatToString(height)[i - 9];
        }
      }
    }
    assert scale[9..] == NatToString(height);
    ParsePyIntOfNatToString(height);
    if extra.Some? && extra.value != [] {
      SplitOnCons(scale, ',', extra.value);
      assert scale + "," + extra.value == scale + [','] + extra.value;
    }
  }

  /** The audio part of the command: AAC stereo at the given rate, or `-an`
      when the rung has no audio. */
  function AudioArgs(audio: int): (args: seq<string>)
    ensures audio > 0 ==> args == ["-c:a", "aac", "-b:a", NatToString(audio), "-ac", "2"]
    ensures audio <= 0 ==> args == ["-an"]
  {
    if audio > 0 then ["-c:a", "aac", "-b:a", NatToString(audio), "-ac", "2"] else ["-an"]
  }

  /** The head of the command: the encoder, overwrite, quiet logging, the
      input and the filter. */
  function CommandHead(ffmpeg: string, input: string, vf: string): (args: seq<string>)
    ensures |args| == 8 && args[0] == ffmpeg && args[5] == input && args[7] == vf
  {
    [ffmpeg, "-y", "-loglevel", "error", "-i", input, "-vf", vf]
  }

  /** The video part: H.264 at the given rate, capped at that rate, with a
      buffer of twice the rate. */
  function VideoArgs(video: nat): (args: seq<string>)
    ensures |args| == 12
    ensures args[7] == NatToString(video) && args[9] == NatToString(video) && args[11] == NatToString(2 * video)
  {
    ["-c:v", "libx264", "-preset", "ultrafast", "-pix_fmt", "yuv420p",
     "-b:v", NatToString(video), "-maxrate", NatToString(video), "-bufsize", NatToString(video * 2)]
  }

  /** The container flag and the progress pipe on standard output. */
  const OutputFlags: seq<string> := ["-movflags", "+faststart", "-progress", "pipe:1", "-nostats"]

  /** The encoder command line for one attempt. */
  function EncodeCommand(ffmpeg: string, input: string, vf: string, video: nat, audio: int, tmp: string): seq<string>
  {
    CommandHead(ffmpeg, input, vf) + VideoArgs(video) + OutputFlags + AudioArgs(audio) + [tmp]
  }

  /** Where the command puts what: the encoder first, then the input, the
      filter, the video rate (as bitrate, maximum rate and twice over as
      buffer size), the progress pipe, the audio part and, last, the
      temporary output. */
  lemma CommandShape(ffmpeg: string, input: string, vf: string, video: nat, audio: int, tmp: string)
    ensures var cmd := EncodeCommand(ffmpeg, input, vf, video, audio, tmp);
            |cmd| == (if audio > 0 then 32 else 27)
            && cmd[0] == ffmpeg && cmd[5] == input && cmd[7] == vf && cmd[|cmd| - 1] == tmp
            && cmd[15] == NatToString(video) && cmd[17] == NatToString(video) && cmd[19] == NatToString(2 * video)
            && cmd[22] == "-progress" && cmd[23] == "pipe:1"
            && (cmd[25] == "-an" <==> audio <= 0)
            && (audio > 0 ==> cmd[25] == "-c:a" && cmd[28] == NatToString(audio))
  {
    var head := CommandHead(ffmpeg, input, vf);
    var video' := VideoArgs(video);
    var audio' := AudioArgs(audio);
    var front := head + video' + OutputFlags;
    var cmd := front + audio' + [tmp];
    assert |front| == 25;
    assert front[0] == ffmpeg && front[5] == input && front[7] == vf;
    assert front[15] == video'[7] && front[17] == video'[9] && front[19] == video'[11];
    assert front[22] == OutputFlags[2] && front[23] == OutputFlags[3];
    assert cmd[25] == audio'[0];
    assert audio > 0 ==> cmd[28] == audio'[3];
  }

  /** The rates in the command read back as the planned ones. */
  lemma CommandRates(ffmpeg: string, input: string, vf: string, video: nat, audio: int, tmp: string)
    ensures var cmd := EncodeCommand(ffmpeg, input, vf, video, audio, tmp);
            ParsePyInt(cmd[15]) == Some(video) && ParsePyInt(cmd[19]) == Some(2 * video)
            && (audio > 0 ==> ParsePyInt(cmd[28]) == Some(audio))
  {
    CommandShape(ffmpeg, input, vf, video, audio, tmp);
    ParsePyIntOfNatToString(video);
    ParsePyIntOfNatToString(2 * video);
    if audio > 0 {
      ParsePyIntOfNatToString(audio);
    }
  }

  /** The status line shown before each attempt. */
  function StatusText(idx: nat, total: nat): (t: string)
    ensures StartsWith(t, "Intento ")
  {
    "Intento " + (NatToString(idx) + (" de " + NatToString(total) + " (10MB max)"))
  }

  /** Different attempts announce themselves differently. */
  lemma StatusTextInjective(i: nat, j: nat, total: nat)
    requires StatusText(i, total) == StatusText(j, total)
    ensures i == j
  {
    var rest := " de " + NatToString(total) + " (10MB max)";
    DropPrefix("Intento ", NatToString(i) + rest, NatToString(j) + rest);
    DigitsPrefixUnique(NatToString(i), rest, NatToString(j), rest);
    NatToStringInjective(i, j);
  }

  /** `{base}_discord10mb.mp4`. */
  function FinalName(base: string): string
  {
    base + "_discord10mb.mp4"
  }

  /** `{base}_discord10mb_try{idx}.tmp.mp4`. */
  function TmpName(base: string, idx: nat): string
  {
    base + "_discord10mb_try" + NatToString(idx) + ".tmp.mp4"
  }

  /** The suffix both names add to the base. */
  lemma NamesExtendBase(base: string, idx: nat)
    ensures FinalName(base) == base + "_discord10mb.mp4"
    ensures TmpName(base, idx) == base + ("_discord10mb_try" + NatToString(idx) + ".tmp.mp4")
    ensures Lacks(FinalName(base)[|base|..], '/') && Lacks(TmpName(base, idx)[|base|..], '/')
  {
    var digits := NatToString(idx);
    var suffix := "_discord10mb_try" + digits + ".tmp.mp4";
    assert TmpName(base, idx)[|base|..] == suffix;
    assert FinalName(base)[|base|..] == "_discord10mb.mp4";
    forall i | 0 <= i < |suffix| ensures suffix[i] != '/' {
      if 16 <= i < 16 + |digits| {
        assert suffix[i] == digits[i - 16];
      }
    }
  }

  /** No attempt's temporary file has the final name. */
  lemma TmpIsNotFinal(base: string, idx: nat)
    ensures TmpName(base, idx) != FinalName(base)
  {
    assert TmpName(base, idx)[|base| + 12] == '_';
    assert FinalName(base)[|base| + 12] == '.';
  }

  /** Different attempts write different temporary files. */
  lemma TmpNamesDistinct(base: string, i: nat, j: nat)
    ensures TmpName(base, i) == TmpName(base, j) ==> i == j
  {
    if TmpName(base, i) == TmpName(base, j) {
      var pre := base + "_discord10mb_try";
      var ti := NatToString(i) + ".tmp.mp4";
      var tj := NatToString(j) + ".tmp.mp4";
      assert TmpName(base, i) == pre + ti;
      assert TmpName(base, j) == pre + tj;
      assert ti == TmpName(base, i)[|pre|..];
      assert tj == TmpName(base, j)[|pre|..];
      DigitsPrefixUnique(NatToString(i), ".tmp.mp4", NatToString(j), ".tmp.mp4");
      NatToStringInjective(i, j);
    }
  }
}
