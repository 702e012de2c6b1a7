/** The YouTube download tab (core/tabs/youtube_tab.py): the checks a click
    on "Download" makes before it starts a worker thread, the worker that
    runs the download and reports back, and the Tk event queue through which
    everything the worker reports reaches the screen. Every screen update is
    posted with `root.after(0, ...)`; Tk runs those callbacks one at a time
    in the order they were posted, and one posted while another runs goes
    to the back of the queue. */
module YouTubeTab {
  import opened Common
  import YouTubeService
  import Paths

  // ---------------------------------------------------------------- what the screen shows

  /** A message box: `showerror` when `error`, `showinfo` otherwise. */
  datatype Dialog = Dialog(error: bool, title: string, text: string)

  /** A callback waiting in Tk's queue. */
  datatype Task =
    | ShowStatus(text: string)             // `_set_status`
    | ShowProgress(value: real)            // `_set_progress`
    | ApplyDownloading(downloading: bool)  // `_set_downloading`
    | ShowDialog(dialog: Dialog)           // the worker's error-box lambdas
    | Finish(ok: bool, formatLabel: string, quality: string)  // the worker's `finish`

  /** The part of the tab the event loop updates. */
  datatype Screen = Screen(downloading: bool, buttonEnabled: bool, progress: real, status: string,
                           dialogs: seq<Dialog>, queue: seq<Task>)

  /** Which code runs the callbacks. `AsWritten` is the tab as it stands:
      `_set_downloading(False)` posts `_set_status("")` behind whatever is
      already queued, and the worker's error-box lambdas name the `except`
      target `e`, which Python deletes when the clause ends, so running one
      raises `NameError` and shows nothing. `Corrected` empties the status on
      the spot and binds the message before posting, so the box appears. */
  datatype Version = AsWritten | Corrected

  const DoneText := "Done \U{2705}"
  const FailedText := "Failed"

  /** `max(0, min(100, float(value)))`. */
  function ClampPercent(v: real): (r: real)
    ensures 0.0 <= r <= 100.0
    ensures 0.0 <= v <= 100.0 ==> r == v
    ensures v > 100.0 ==> r == 100.0
    ensures v < 0.0 ==> r == 0.0
  {
    if v > 100.0 then 100.0 else if v < 0.0 then 0.0 else v
  }

  /** The message box `finish` shows. */
  function FinishDialog(ok: bool, formatLabel: string, quality: string): Dialog
  {
    if ok then Dialog(false, "YouTube Downloader", "Listo!\nFormato: " + formatLabel + "\nCalidad: " + quality)
    else Dialog(true, "YouTube Downloader", "Falló la descarga. Revisá la URL o yt-dlp/ffmpeg.")
  }

  /** The callbacks a task posts while it runs. */
  function Posted(t: Task, mode: Version): seq<Task>
  {
    match t
    case Finish(ok, _, _) =>
      [ApplyDownloading(false)] + (if ok then [ShowProgress(100.0), ShowStatus(DoneText)] else [ShowStatus(FailedText)])
    case ApplyDownloading(d) => if !d && mode == AsWritten then [ShowStatus("")] else []
    case _ => []
  }

  /** Running task `t`, already taken off the queue of `s`. */
  function Run(s: Screen, t: Task, mode: Version): (r: Screen)
    ensures r.queue == s.queue + Posted(t, mode)
    ensures t.ShowDialog? ==> r.dialogs == s.dialogs + (if mode == Corrected then [t.dialog] else [])
  {
    var after := match t
      case ShowStatus(text) => s.(status := text)
      case ShowProgress(v) => s.(progress := ClampPercent(v))
      case ApplyDownloading(d) =>
        s.(downloading := d, buttonEnabled := !d, status := if !d && mode == Corrected then "" else s.status)
      case ShowDialog(dialog) => if mode == Corrected then s.(dialogs := s.dialogs + [dialog]) else s
      case Finish(ok, f, q) => s.(dialogs := s.dialogs + [FinishDialog(ok, f, q)]);
    after.(queue := s.queue + Posted(t, mode))
  }

  /** One turn of the event loop: the oldest task runs. */
  function Step(s: Screen, mode: Version): Screen
    requires s.queue != []
  {
    Run(s.(queue := s.queue[1..]), s.queue[0], mode)
  }

  // A task posts fewer units of work than it carries, so the queue empties.

  function TaskWeight(t: Task): nat
  {
    match t
    case Finish(_, _, _) => 5
    case ApplyDownloading(_) => 2
    case _ => 1
  }

  function Weight(q: seq<Task>): nat
  {
    if q == [] then 0 else TaskWeight(q[0]) + Weight(q[1..])
  }

  lemma {:induction false} WeightAppend(a: seq<Task>, b: seq<Task>)
    ensures Weight(a + b) == Weight(a) + Weight(b)
    decreases |a|
  {
    if a == [] {
      assert a + b == b;
    } else {
      assert (a + b)[1..] == a[1..] + b;
      WeightAppend(a[1..], b);
    }
  }

  lemma PostedLighter(t: Task, mode: Version)
    ensures Weight(Posted(t, mode)) < TaskWeight(t)
  {
    match t
    case Finish(ok, _, _) =>
      var rest := if ok then [ShowProgress(100.0), ShowStatus(DoneText)] else [ShowStatus(FailedText)];
      WeightAppend([ApplyDownloading(false)], rest);
      assert Weight(rest) <= 2 by {
        assert Weight([ShowStatus(DoneText)]) == 1;
        assert Weight([ShowStatus(FailedText)]) == 1;
        assert [ShowProgress(100.0), ShowStatus(DoneText)][1..] == [ShowStatus(DoneText)];
      }
    case ApplyDownloading(d) =>
      assert Weight([ShowStatus("")]) == 1;
    case _ =>
  }

  lemma StepLighter(s: Screen, mode: Version)
    requires s.queue != []
    ensures Weight(Step(s, mode).queue) < Weight(s.queue)
  {
    WeightAppend(s.queue[1..], Posted(s.queue[0], mode));
    PostedLighter(s.queue[0], mode);
  }

  /** What the screen settles to once every queued callback, and every one
      they post, has run. */
  function Drained(s: Screen, mode: Version): (r: Screen)
    ensures r.queue == []
    decreases Weight(s.queue)
  {
    if s.queue == [] then s
    else
      StepLighter(s, mode);
      Drained(Step(s, mode), mode)
  }

  // ---------------------------------------------------------------- the screen stays consistent

  /** The progress bar stays within 0..100 and the button is enabled exactly
      when no download runs. */
  predicate Consistent(s: Screen)
  {
    0.0 <= s.progress <= 100.0 && s.buttonEnabled == !s.downloading
  }

  lemma RunConsistent(s: Screen, t: Task, mode: Version)
    requires Consistent(s)
    ensures Consistent(Run(s, t, mode))
  {
  }

  lemma {:induction false} DrainedConsistent(s: Screen, mode: Version)
    requires Consistent(s)
    ensures Consistent(Drained(s, mode))
    decreases Weight(s.queue)
  {
    if s.queue != [] {
      StepLighter(s, mode);
      RunConsistent(s.(queue := s.queue[1..]), s.queue[0], mode);
      DrainedConsistent(Step(s, mode), mode);
    }
  }

  // ---------------------------------------------------------------- how a download ends

  predicate NoFinish(q: seq<Task>)
  {
    forall i :: 0 <= i < |q| ==> !q[i].Finish?
  }

  /** The screen once `finish` and what it posts have run, in the corrected
      version. */
  lemma FinishRuns(s: Screen, ok: bool, f: string, q: string)
    requires s.queue == [Finish(ok, f, q)]
    ensures var r := Drained(s, Corrected);
      r.status == (if ok then DoneText else FailedText)
      && !r.downloading && r.buttonEnabled
      && (ok ==> r.progress == 100.0) && (!ok ==> r.progress == s.progress)
      && r.dialogs == s.dialogs + [FinishDialog(ok, f, q)]
  {
    var s1 := Step(s, Corrected);
    StepLighter(s, Corrected);
    assert Drained(s, Corrected) == Drained(s1, Corrected);
    var s2 := Step(s1, Corrected);
    StepLighter(s1, Corrected);
    assert Drained(s1, Corrected) == Drained(s2, Corrected);
    assert !s2.downloading && s2.buttonEnabled && s2.status == "";
    var s3 := Step(s2, Corrected);
    StepLighter(s2, Corrected);
    assert Drained(s2, Corrected) == Drained(s3, Corrected);
    if ok {
      var s4 := Step(s3, Corrected);
      StepLighter(s3, Corrected);
      assert s4.queue == [];
      assert Drained(s3, Corrected) == Drained(s4, Corrected) == s4;
    } else {
      assert s3.queue == [];
    }
  }

  /** In the corrected version callbacks that are no `finish` post nothing,
      so they run out before the `finish` behind them. */
  lemma {:induction false} FinishLast(s: Screen, pre: seq<Task>, ok: bool, f: string, q: string)
    requires s.queue == pre + [Finish(ok, f, q)] && NoFinish(pre)
    ensures var r := Drained(s, Corrected);
      r.status == (if ok then DoneText else FailedText)
      && !r.downloading && r.buttonEnabled
      && (ok ==> r.progress == 100.0)
      && |r.dialogs| > 0 && r.dialogs[|r.dialogs| - 1] == FinishDialog(ok, f, q)
    decreases |pre|
  {
    if pre == [] {
      assert s.queue == [Finish(ok, f, q)];
      FinishRuns(s, ok, f, q);
    } else {
      StepLighter(s, Corrected);
      var s1 := Step(s, Corrected);
      assert Posted(pre[0], Corrected) == [];
      assert s.queue[1..] == pre[1..] + [Finish(ok, f, q)];
      FinishLast(s1, pre[1..], ok, f, q);
    }
  }

  /** As written, the status line ends up empty after every download: the
      `_set_status("")` that `_set_downloading(False)` posts runs after the
      "Done ✅" or "Failed" that `finish` posted. */
  lemma StatusLostAsWritten(s: Screen, ok: bool, f: string, q: string)
    requires s.queue == [Finish(ok, f, q)]
    ensures Drained(s, AsWritten).status == ""
  {
    var s1 := Step(s, AsWritten);
    StepLighter(s, AsWritten);
    assert Drained(s, AsWritten) == Drained(s1, AsWritten);
    var s2 := Step(s1, AsWritten);
    StepLighter(s1, AsWritten);
    assert Drained(s1, AsWritten) == Drained(s2, AsWritten);
    assert s2.queue[|s2.queue| - 1] == ShowStatus("");
    var s3 := Step(s2, AsWritten);
    StepLighter(s2, AsWritten);
    assert Drained(s2, AsWritten) == Drained(s3, AsWritten);
    if ok {
      assert s3.queue == [ShowStatus(DoneText), ShowStatus("")];
      var s4 := Step(s3, AsWritten);
      StepLighter(s3, AsWritten);
      assert Drained(s3, AsWritten) == Drained(s4, AsWritten);
      var s5 := Step(s4, AsWritten);
      assert s5.queue == [] && s5.status == "";
      StepLighter(s4, AsWritten);
      assert Drained(s4, AsWritten) == Drained(s5, AsWritten) == s5;
    } else {
      assert s3.queue == [ShowStatus("")];
      var s4 := Step(s3, AsWritten);
      StepLighter(s3, AsWritten);
      assert s4.queue == [] && s4.status == "";
      assert Drained(s3, AsWritten) == Drained(s4, AsWritten) == s4;
    }
  }

  lemma DrainedStep(s: Screen, mode: Version)
    requires s.queue != []
    ensures Drained(s, mode) == Drained(Step(s, mode), mode)
  {
    StepLighter(s, mode);
  }

  /** Callbacks that post nothing when they run. */
  predicate Quiet(q: seq<Task>, mode: Version)
  {
    forall i :: 0 <= i < |q| ==> Posted(q[i], mode) == []
  }

  /** As written, the status line is empty after every download, whatever
      quiet callbacks were queued before the `finish`. */
  lemma {:induction false} FinishLastAsWritten(s: Screen, pre: seq<Task>, ok: bool, f: string, q: string)
    requires s.queue == pre + [Finish(ok, f, q)] && Quiet(pre, AsWritten)
    ensures Drained(s, AsWritten).status == ""
    decreases |pre|
  {
    if pre == [] {
      assert s.queue == [Finish(ok, f, q)];
      StatusLostAsWritten(s, ok, f, q);
    } else {
      StepLighter(s, AsWritten);
      var s1 := Step(s, AsWritten);
      assert Posted(pre[0], AsWritten) == [];
      assert s.queue[1..] == pre[1..] + [Finish(ok, f, q)];
      FinishLastAsWritten(s1, pre[1..], ok, f, q);
    }
  }

  /** Queues of status, bar and download-state updates, which show no box. */
  predicate Dialogless(q: seq<Task>)
  {
    forall i :: 0 <= i < |q| ==> q[i].ShowStatus? || q[i].ShowProgress? || q[i].ApplyDownloading?
  }

  lemma {:induction false} DrainedKeepsDialogs(s: Screen, mode: Version)
    requires Dialogless(s.queue)
    ensures Drained(s, mode).dialogs == s.dialogs
    decreases Weight(s.queue)
  {
    if s.queue != [] {
      StepLighter(s, mode);
      var s1 := Step(s, mode);
      assert s1.queue == s.queue[1..] + Posted(s.queue[0], mode);
      assert Dialogless(s1.queue);
      DrainedKeepsDialogs(s1, mode);
    }
  }

  // ---------------------------------------------------------------- the progress hook

  /** `_ytdlp_hook`: the callbacks one line of yt-dlp output posts. `show1`
      is the `.1f` formatting of a float. */
  function HookTasks(line: string, show1: real -> string): seq<Task>
  {
    match YouTubeService.ParseProgressPercent(line)
    case Some(p) => [ShowProgress(p), ShowStatus("Downloading... " + show1(p) + "%")]
    case None =>
      if Contains(line, "[ExtractAudio]") then [ShowStatus("Converting to MP3...")]
      else if Contains(line, "Merging formats") then [ShowStatus("Merging video+audio...")]
      else if Contains(line, "Destination") then [ShowStatus("Starting...")]
      else []
  }

  /** What one line does to the screen once its callbacks have run: a
      progress line moves the bar (never past 100) and shows the percentage;
      any other line leaves the bar alone and changes the status only for the
      three stages the hook knows, `[ExtractAudio]` first. */
  lemma HookOnScreen(s: Screen, line: string, show1: real -> string, mode: Version)
    requires s.queue == []
    ensures var r := Drained(s.(queue := HookTasks(line, show1)), mode);
      match YouTubeService.ParseProgressPercent(line)
      case Some(p) =>
        r.progress == ClampPercent(p) <= 100.0 && r.status == "Downloading... " + show1(p) + "%"
        && r.downloading == s.downloading && r.dialogs == s.dialogs
      case None =>
        r.progress == s.progress && r.downloading == s.downloading && r.dialogs == s.dialogs
        && (Contains(line, "[ExtractAudio]") ==> r.status == "Converting to MP3...")
        && (!Contains(line, "[ExtractAudio]") && Contains(line, "Merging formats") ==> r.status == "Merging video+audio...")
        && (!Contains(line, "[ExtractAudio]") && !Contains(line, "Merging formats") && Contains(line, "Destination")
            ==> r.status == "Starting...")
        && (!Contains(line, "[ExtractAudio]") && !Contains(line, "Merging formats") && !Contains(line, "Destination")
            ==> r.status == s.status)
  {
    var s0 := s.(queue := HookTasks(line, show1));
    if s0.queue != [] {
      StepLighter(s0, mode);
      var s1 := Step(s0, mode);
      if s1.queue != [] {
        StepLighter(s1, mode);
        var s2 := Step(s1, mode);
        assert s2.queue == [];
        assert Drained(s1, mode) == Drained(s2, mode) == s2;
      } else {
        assert Drained(s1, mode) == s1;
      }
      assert Drained(s0, mode) == Drained(s1, mode);
    }
  }

  /** The callbacks a run of output lines posts, in order. */
  function HookAll(lines: seq<string>, show1: real -> string): seq<Task>
  {
    if lines == [] then [] else HookAll(lines[..|lines| - 1], show1) + HookTasks(lines[|lines| - 1], show1)
  }

  lemma HookAllSnoc(lines: seq<string>, k: nat, show1: real -> string)
    requires k < |lines|
    ensures HookAll(lines[..k + 1], show1) == HookAll(lines[..k], show1) + HookTasks(lines[k], show1)
  {
    assert lines[..k + 1][..k] == lines[..k];
  }

  lemma {:induction false} HookAllNoFinish(lines: seq<string>, show1: real -> string)
    ensures NoFinish(HookAll(lines, show1))
    decreases |lines|
  {
    if lines != [] {
      HookAllNoFinish(lines[..|lines| - 1], show1);
    }
  }

  // ---------------------------------------------------------------- clicking "Download"

  const Qualities: seq<string> := ["1080p", "720p", "480p", "360p"]

  /** What a started worker thread was handed. */
  datatype Job = Job(url: string, outDir: string, quality: string, outputType: string, formatLabel: string)

  datatype Click = Ignored | Refused(message: string) | Accepted(job: Job)

  /** A pasted URL that lost its "ht" gets it back. */
  function RepairUrl(url: string): (r: string)
    ensures StartsWith(url, "tps://") ==> StartsWith(r, "https://")
    ensures !StartsWith(url, "tps://") ==> r == url
    ensures r == [] <==> url == []
  {
    if StartsWith(url, "tps://") then "ht" + url else url
  }

  /** What `download` makes of a click, given the entries and boxes as they
      are and `isDir` for `os.path.isdir`. */
  function ClickOutcome(downloading: bool, urlText: string, outText: string, qualityText: string,
                        formatText: string, isDir: string -> bool): Click
  {
    if downloading then Ignored
    else ClickChecks(RepairUrl(Strip(urlText)), Strip(outText), Strip(qualityText), Upper(Strip(formatText)), isDir)
  }

  /** The checks of `download`, in order, on the cleaned-up inputs. */
  function ClickChecks(url: string, outDir: string, quality: string, formatLabel: string,
                       isDir: string -> bool): Click
  {
    if url == [] then Refused("Pegá una URL de YouTube.")
    else if outDir == [] then Refused("Elegí una carpeta válida para guardar.")
    else if quality !in Qualities then Refused("Elegí una calidad: 1080p, 720p, 480p o 360p.")
    else if !isDir(outDir) then Refused("La carpeta seleccionada no existe.")
    else Accepted(Job(url, outDir, quality, if formatLabel == "MP3" then "mp3" else "mp4", formatLabel))
  }

  /** A click starts a download exactly when none is running and the URL,
      the folder (an existing directory) and one of the four qualities are
      given; the job carries the stripped folder and quality, the repaired
      URL, and MP3 exactly when the format box reads "MP3" in any case. */
  lemma ClickAccepted(downloading: bool, urlText: string, outText: string, qualityText: string,
                      formatText: string, isDir: string -> bool)
    ensures var c := ClickOutcome(downloading, urlText, outText, qualityText, formatText, isDir);
      c.Accepted? <==> (!downloading && Strip(urlText) != [] && Strip(outText) != []
                        && Strip(qualityText) in Qualities && isDir(Strip(outText)))
    ensures var c := ClickOutcome(downloading, urlText, outText, qualityText, formatText, isDir);
      c.Accepted? ==>
        c.job.outDir == Strip(outText) && c.job.quality in Qualities
        && (c.job.outputType == "mp3" <==> Upper(Strip(formatText)) == "MP3")
        && (StartsWith(Strip(urlText), "tps://") ==> StartsWith(c.job.url, "https://"))
        && (!StartsWith(Strip(urlText), "tps://") ==> c.job.url == Strip(urlText))
  {
  }

  // ---------------------------------------------------------------- the worker thread

  /** The callbacks the worker posts: one batch per output line the hook
      saw, an error box if `download` raised, and `finish` last. */
  function WorkerTasks(o: YouTubeService.Outcome, job: Job, show1: real -> string): seq<Task>
  {
    match o
    case Completed(_, hooked, ok) => HookAll(hooked, show1) + [Finish(ok, job.formatLabel, job.quality)]
    case Raised(notFound, message) =>
      [ShowDialog(Dialog(true, if notFound then "Missing dependency" else "Error", message)),
       Finish(false, job.formatLabel, job.quality)]
  }

  /** Once everything queued has run, the status line says "Done ✅" exactly
      when `download` returned true and "Failed" otherwise; the button is
      enabled again and a successful download leaves the bar full. */
  lemma WorkerReports(s: Screen, pre: seq<Task>, o: YouTubeService.Outcome, job: Job, show1: real -> string)
    requires s.queue == pre + WorkerTasks(o, job, show1) && NoFinish(pre)
    ensures var r := Drained(s, Corrected);
      r.status == (if o.Completed? && o.ok then DoneText else FailedText)
      && !r.downloading && r.buttonEnabled
      && (o.Completed? && o.ok ==> r.progress == 100.0)
  {
    match o
    case Completed(_, hooked, ok) =>
      HookAllNoFinish(hooked, show1);
      var before := pre + HookAll(hooked, show1);
      assert s.queue == before + [Finish(ok, job.formatLabel, job.quality)];
      FinishLast(s, before, ok, job.formatLabel, job.quality);
    case Raised(notFound, message) =>
      var before := pre + [ShowDialog(Dialog(true, if notFound then "Missing dependency" else "Error", message))];
      assert s.queue == before + [Finish(false, job.formatLabel, job.quality)];
      FinishLast(s, before, false, job.formatLabel, job.quality);
  }

  lemma {:induction false} HookAllQuiet(lines: seq<string>, show1: real -> string, mode: Version)
    ensures Quiet(HookAll(lines, show1), mode)
    decreases |lines|
  {
    if lines != [] {
      HookAllQuiet(lines[..|lines| - 1], show1, mode);
    }
  }

  /** As written, every download ends with an empty status line, whether
      `download` returned true, returned false or raised. */
  lemma WorkerReportsAsWritten(s: Screen, pre: seq<Task>, o: YouTubeService.Outcome, job: Job, show1: real -> string)
    requires s.queue == pre + WorkerTasks(o, job, show1) && Quiet(pre, AsWritten)
    ensures Drained(s, AsWritten).status == ""
  {
    match o
    case Completed(_, hooked, ok) =>
      HookAllQuiet(hooked, show1, AsWritten);
      var before := pre + HookAll(hooked, show1);
      assert s.queue == before + [Finish(ok, job.formatLabel, job.quality)];
      FinishLastAsWritten(s, before, ok, job.formatLabel, job.quality);
    case Raised(notFound, message) =>
      var before := pre + [ShowDialog(Dialog(true, if notFound then "Missing dependency" else "Error", message))];
      assert s.queue == before + [Finish(false, job.formatLabel, job.quality)];
      FinishLastAsWritten(s, before, false, job.formatLabel, job.quality);
  }

  /** The boxes a failed download shows once the worker's callbacks have run:
      `finish`'s box, preceded in the corrected version by the box naming the
      error. */
  function RaisedDialogs(notFound: bool, message: string, job: Job, mode: Version): seq<Dialog>
  {
    (if mode == Corrected then [Dialog(true, if notFound then "Missing dependency" else "Error", message)] else [])
    + [FinishDialog(false, job.formatLabel, job.quality)]
  }

  lemma RaisedShows(s: Screen, notFound: bool, message: string, job: Job, show1: real -> string, mode: Version)
    requires s.queue == WorkerTasks(YouTubeService.Raised(notFound, message), job, show1)
    ensures Drained(s, mode).dialogs == s.dialogs + RaisedDialogs(notFound, message, job, mode)
  {
    var box := Dialog(true, if notFound then "Missing dependency" else "Error", message);
    var fin := Finish(false, job.formatLabel, job.quality);
    assert s.queue == [ShowDialog(box), fin];
    var s1 := Run(s.(queue := [fin]), ShowDialog(box), mode);
    DrainedStep(s, mode);
    assert s1.queue == [fin] && s1.dialogs == s.dialogs + (if mode == Corrected then [box] else []);
    var s2 := Run(s1.(queue := []), fin, mode);
    DrainedStep(s1, mode);
    assert s2.dialogs == s1.dialogs + [FinishDialog(false, job.formatLabel, job.quality)];
    assert s2.queue == [ApplyDownloading(false), ShowStatus(FailedText)];
    DrainedKeepsDialogs(s2, mode);
  }

  /** As written, a download that raised (`FileNotFoundError` when ffmpeg is
      missing, or any other error) shows only `finish`'s "Falló la
      descarga..." box: the error's own box is lost. */
  lemma ErrorBoxLostAsWritten(s: Screen, notFound: bool, message: string, job: Job, show1: real -> string)
    requires s.queue == WorkerTasks(YouTubeService.Raised(notFound, message), job, show1)
    ensures Drained(s, AsWritten).dialogs == s.dialogs + [FinishDialog(false, job.formatLabel, job.quality)]
  {
    RaisedShows(s, notFound, message, job, show1, AsWritten);
  }

  /** In the corrected version the error's box, titled "Missing dependency"
      exactly when ffmpeg was not found, comes before `finish`'s box. */
  lemma ErrorBoxShown(s: Screen, notFound: bool, message: string, job: Job, show1: real -> string)
    requires s.queue == WorkerTasks(YouTubeService.Raised(notFound, message), job, show1)
    ensures var r := Drained(s, Corrected);
      |r.dialogs| == |s.dialogs| + 2 && r.dialogs[..|s.dialogs|] == s.dialogs
      && r.dialogs[|s.dialogs|] == Dialog(true, if notFound then "Missing dependency" else "Error", message)
      && r.dialogs[|s.dialogs| + 1] == FinishDialog(false, job.formatLabel, job.quality)
  {
    RaisedShows(s, notFound, message, job, show1, Corrected);
  }

  /** From the click to the last callback: the tab reports "Done ✅" exactly
      when ffmpeg was found and yt-dlp started and exited with status 0. */
  lemma DownloadDoneIff(s: Screen, pre: seq<Task>, job: Job, ytdlp: string, height: int,
                        ffmpegLoc: Option<string>, process: YouTubeService.Process, show1: real -> string)
    requires NoFinish(pre)
    requires s.queue == pre + WorkerTasks(YouTubeService.DownloadOutcome(ytdlp, job.url, job.outDir, height,
                                            job.outputType, true, ffmpegLoc, process), job, show1)
    ensures Drained(s, Corrected).status == DoneText
            <==> ffmpegLoc.Some? && process.Ran? && process.returnCode == 0
  {
    var o := YouTubeService.DownloadOutcome(ytdlp, job.url, job.outDir, height, job.outputType, true, ffmpegLoc, process);
    YouTubeService.DownloadSucceedsIff(ytdlp, job.url, job.outDir, height, job.outputType, true, ffmpegLoc, process);
    WorkerReports(s, pre, o, job, show1);
  }

  // ---------------------------------------------------------------- the tab

  /** The tab's entries, boxes, saved folder and started workers: what the
      event loop does not touch. */
  datatype Form = Form(urlEntry: string, outEntry: string, quality: string, format: string,
                       savedDir: Option<string>, jobs: seq<Job>)

  class Tab {
    var urlEntry: string
    var outEntry: string
    var quality: string
    var format: string
    /** `configuration["youtube_download_dir"]`. */
    var savedDir: Option<string>
    /** The worker threads started, oldest first. */
    var jobs: seq<Job>
    var downloading: bool
    var buttonEnabled: bool
    var progress: real
    var status: string
    var dialogs: seq<Dialog>
    /** Tk's queue of `after(0, ...)` callbacks. */
    var queue: seq<Task>
    /** The code that runs those callbacks. */
    const version: Version

    function Shown(): Screen
      reads this
    {
      Screen(downloading, buttonEnabled, progress, status, dialogs, queue)
    }

    function FormOf(): Form
      reads this
    {
      Form(urlEntry, outEntry, quality, format, savedDir, jobs)
    }

    predicate Valid()
      reads this
    {
      Consistent(Shown())
    }

    /** The tab as built: the folder entry shows the saved folder, or
        `<home>/Downloads` when none is saved. */
    constructor(saved: Option<string>, home: string, version: Version)
      ensures Valid() && this.version == version
      ensures FormOf() == Form("", if saved.Some? && saved.value != [] then saved.value else Paths.Join(home, "Downloads"),
                               "720p", "MP4", saved, [])
      ensures Shown() == Screen(false, true, 0.0, "", [], [])
    {
      urlEntry := "";
      outEntry := if saved.Some? && saved.value != [] then saved.value else Paths.Join(home, "Downloads");
      quality := "720p";
      format := "MP4";
      savedDir := saved;
      jobs := [];
      downloading := false;
      buttonEnabled := true;
      progress := 0.0;
      status := "";
      dialogs := [];
      queue := [];
      this.version := version;
    }

    /** `_save_download_dir`: an empty folder is not saved. */
    method SaveDownloadDir(folder: string)
      modifies this
      ensures FormOf() == old(FormOf()).(savedDir := if folder == [] then old(savedDir) else Some(folder))
      ensures Shown() == old(Shown())
    {
      if folder != [] {
        savedDir := Some(folder);
      }
    }

    /** `_save_out_dir_from_entry`: leaving the folder entry saves what it
        holds, stripped, unless that is empty. */
    method SaveOutDirFromEntry()
      modifies this
      ensures FormOf() == old(FormOf()).(savedDir := if Strip(old(outEntry)) == [] then old(savedDir)
                                                     else Some(Strip(old(outEntry))))
      ensures Shown() == old(Shown())
    {
      var folder := Strip(outEntry);
      if folder != [] {
        SaveDownloadDir(folder);
      }
    }

    /** `browse_folder`, given what the folder chooser returned ("" when it
        was cancelled). */
    method BrowseFolder(chosen: string)
      modifies this
      ensures FormOf() == if chosen == [] then old(FormOf())
                          else old(FormOf()).(outEntry := chosen, savedDir := Some(chosen))
      ensures Shown() == old(Shown())
    {
      if chosen != [] {
        outEntry := chosen;
        SaveDownloadDir(chosen);
      }
    }

    method SetStatus(text: string)
      modifies this
      ensures Shown() == old(Shown()).(queue := old(queue) + [ShowStatus(text)])
      ensures FormOf() == old(FormOf())
    {
      queue := queue + [ShowStatus(text)];
    }

    method SetProgress(value: real)
      modifies this
      ensures Shown() == old(Shown()).(queue := old(queue) + [ShowProgress(value)])
      ensures FormOf() == old(FormOf())
    {
      queue := queue + [ShowProgress(value)];
    }

    method SetDownloading(d: bool)
      modifies this
      ensures Shown() == old(Shown()).(queue := old(queue) + [ApplyDownloading(d)])
      ensures FormOf() == old(FormOf())
    {
      queue := queue + [ApplyDownloading(d)];
    }

    /** `_ytdlp_hook`. */
    method Hook(line: string, show1: real -> string)
      modifies this
      ensures Shown() == old(Shown()).(queue := old(queue) + HookTasks(line, show1))
      ensures FormOf() == old(FormOf())
    {
      var pct := YouTubeService.ParseProgressPercent(line);
      if pct.Some? {
        SetProgress(pct.value);
        SetStatus("Downloading... " + show1(pct.value) + "%");
      } else if Contains(line, "[ExtractAudio]") {
        SetStatus("Converting to MP3...");
      } else if Contains(line, "Merging formats") {
        SetStatus("Merging video+audio...");
      } else if Contains(line, "Destination") {
        SetStatus("Starting...");
      }
    }

    /** `download`, the click on "Download": ignored while a download runs;
        otherwise it repairs a URL pasted as "tps://...", refuses with an
        error box the first thing missing, or saves the folder, posts the
        start of the download and starts a worker. */
    method Download(isDir: string -> bool)
      modifies this
      ensures var c := ClickOutcome(old(downloading), old(urlEntry), old(outEntry), old(quality), old(format), isDir);
        var url := if !old(downloading) && StartsWith(Strip(old(urlEntry)), "tps://") then RepairUrl(Strip(old(urlEntry)))
                   else old(urlEntry);
        match c
        case Ignored => FormOf() == old(FormOf()) && Shown() == old(Shown())
        case Refused(message) =>
          FormOf() == old(FormOf()).(urlEntry := url)
          && Shown() == old(Shown()).(dialogs := old(dialogs) + [Dialog(true, "Error", message)])
        case Accepted(job) =>
          FormOf() == old(FormOf()).(urlEntry := url, savedDir := Some(job.outDir), jobs := old(jobs) + [job])
          && Shown() == old(Shown()).(queue := old(queue) + [ShowProgress(0.0), ShowStatus("Preparing..."),
                                                              ApplyDownloading(true)])
    {
      if downloading {
        return;
      }
      var url := Strip(urlEntry);
      var outDir := Strip(outEntry);
      var q := Strip(quality);
      var formatLabel := Upper(Strip(format));
      if StartsWith(url, "tps://") {
        url := "ht" + url;
        urlEntry := url;
      }
      Check(url, outDir, q, formatLabel, isDir);
    }

    /** The checks of `download` and what follows them. */
    method Check(url: string, outDir: string, q: string, formatLabel: string, isDir: string -> bool)
      modifies this
      ensures match ClickChecks(url, outDir, q, formatLabel, isDir)
        case Ignored => false
        case Refused(message) =>
          FormOf() == old(FormOf()) && Shown() == old(Shown()).(dialogs := old(dialogs) + [Dialog(true, "Error", message)])
        case Accepted(job) =>
          FormOf() == old(FormOf()).(savedDir := Some(job.outDir), jobs := old(jobs) + [job])
          && Shown() == old(Shown()).(queue := old(queue) + [ShowProgress(0.0), ShowStatus("Preparing..."),
                                                              ApplyDownloading(true)])
    {
      var outputType := if formatLabel == "MP3" then "mp3" else "mp4";
      if url == [] {
        dialogs := dialogs + [Dialog(true, "Error", "Pegá una URL de YouTube.")];
        return;
      }
      if outDir == [] {
        dialogs := dialogs + [Dialog(true, "Error", "Elegí una carpeta válida para guardar.")];
        return;
      }
      if q !in Qualities {
        dialogs := dialogs + [Dialog(true, "Error", "Elegí una calidad: 1080p, 720p, 480p o 360p.")];
        return;
      }
      if !isDir(outDir) {
        dialogs := dialogs + [Dialog(true, "Error", "La carpeta seleccionada no existe.")];
        return;
      }
      SaveDownloadDir(outDir);
      SetProgress(0.0);
      SetStatus("Preparing...");
      SetDownloading(true);
      jobs := jobs + [Job(url, outDir, q, outputType, formatLabel)];
    }

    /** The worker thread of a job: runs `download` with the hook, then posts
        the error box, if any, and `finish`. `ffmpegLoc` and `process` stand
        for what the file system and yt-dlp do. */
    method Worker(job: Job, ytdlp: string, ffmpegLoc: Option<string>, process: YouTubeService.Process,
                  show1: real -> string)
      modifies this
      ensures Shown() == old(Shown()).(queue := old(queue) + WorkerTasks(
        YouTubeService.DownloadOutcome(ytdlp, job.url, job.outDir, YouTubeService.HeightFromQuality(Some(job.quality)),
                                       job.outputType, true, ffmpegLoc, process), job, show1))
      ensures FormOf() == old(FormOf())
    {
      var o := YouTubeService.Download(ytdlp, job.url, job.outDir, Some(job.quality), job.outputType, true,
                                       ffmpegLoc, process);
      Report(o, job, show1);
    }

    /** What the worker posts once `download` has returned or raised. */
    method Report(o: YouTubeService.Outcome, job: Job, show1: real -> string)
      modifies this
      ensures Shown() == old(Shown()).(queue := old(queue) + WorkerTasks(o, job, show1))
      ensures FormOf() == old(FormOf())
    {
      var ok := false;
      match o {
        case Completed(_, hooked, succeeded) =>
          HookLines(hooked, show1);
          ok := succeeded;
        case Raised(notFound, message) =>
          queue := queue + [ShowDialog(Dialog(true, if notFound then "Missing dependency" else "Error", message))];
      }
      queue := queue + [Finish(ok, job.formatLabel, job.quality)];
    }

    /** The hook, line after line. */
    method HookLines(lines: seq<string>, show1: real -> string)
      modifies this
      ensures Shown() == old(Shown()).(queue := old(queue) + HookAll(lines, show1))
      ensures FormOf() == old(FormOf())
    {
      var k := 0;
      while k < |lines|
        invariant 0 <= k <= |lines|
        invariant Shown() == old(Shown()).(queue := old(queue) + HookAll(lines[..k], show1))
        invariant FormOf() == old(FormOf())
      {
        Hook(lines[k], show1);
        HookAllSnoc(lines, k, show1);
        AppendAssoc(old(queue), HookAll(lines[..k], show1), HookTasks(lines[k], show1));
        k := k + 1;
      }
      assert lines[..|lines|] == lines;
    }

    /** One turn of the Tk event loop. */
    method RunNext()
      requires queue != [] && Valid()
      modifies this
      ensures Shown() == Step(old(Shown()), version)
      ensures FormOf() == old(FormOf())
      ensures Valid()
    {
      var t := queue[0];
      queue := queue[1..];
      Apply(t);
      RunConsistent(old(Shown()).(queue := old(queue)[1..]), t, version);
    }

    /** Running the callback `t`, already taken off the queue. */
    method Apply(t: Task)
      modifies this
      ensures Shown() == Run(old(Shown()), t, version)
      ensures FormOf() == old(FormOf())
    {
      match t {
        case ShowStatus(text) =>
          status := text;
        case ShowProgress(v) =>
          progress := if v > 100.0 then 100.0 else if v < 0.0 then 0.0 else v;
        case ApplyDownloading(d) =>
          downloading := d;
          buttonEnabled := !d;
          if !d && version == AsWritten {
            SetStatus("");
          } else if !d {
            status := "";
          }
        case ShowDialog(dialog) =>
          // as written the lambda's `e` is gone and it raises `NameError`
          if version == Corrected {
            dialogs := dialogs + [dialog];
          }
        case Finish(ok, formatLabel, q) =>
          Conclude(ok, formatLabel, q);
      }
    }

    /** The worker's `finish`: it posts the end of the download and shows
        the message box. */
    method Conclude(ok: bool, formatLabel: string, q: string)
      modifies this
      ensures Shown() == old(Shown()).(dialogs := old(dialogs) + [FinishDialog(ok, formatLabel, q)],
                                      queue := old(queue) + Posted(Finish(ok, formatLabel, q), version))
      ensures FormOf() == old(FormOf())
    {
      SetDownloading(false);
      if ok {
        SetProgress(100.0);
        SetStatus(DoneText);
      } else {
        SetStatus(FailedText);
      }
      dialogs := dialogs + [FinishDialog(ok, formatLabel, q)];
    }

    /** The event loop until nothing is left to run. */
    method RunPending()
      requires Valid()
      modifies this
      ensures Shown() == Drained(old(Shown()), version)
      ensures FormOf() == old(FormOf())
      ensures Valid()
    {
      while queue != []
        invariant Drained(Shown(), version) == Drained(old(Shown()), version)
        invariant FormOf() == old(FormOf())
        invariant Valid()
        decreases Weight(queue)
      {
        StepLighter(Shown(), version);
        RunNext();
      }
    }
  }
}
