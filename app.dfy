/**
 * The window of converter.py (`ConverterApp`): the list of chosen files, the
 * two bitrate spin boxes, the convert button, the progress bar and the log,
 * and the handlers of the signals the batch runner emits. The dialogs are
 * replaced by their results, given as parameters.
 */
module App {
  import opened Wrappers
  import opened Text
  import opened Paths
  import opened Runner

  // ---------------------------------------------------------------------------
  // The input file list.

  predicate NoDuplicates(xs: seq<string>)
  {
    forall i, j :: 0 <= i < j < |xs| ==> xs[i] != xs[j]
  }

  /** `xs` after appending, in order, each of `ys` that is not already there
      (including one appended earlier from `ys` itself). */
  function AddUnique(xs: seq<string>, ys: seq<string>): seq<string>
  {
    if ys == [] then xs
    else
      var zs := AddUnique(xs, ys[..|ys| - 1]);
      var y := ys[|ys| - 1];
      if y in zs then zs else zs + [y]
  }

  /** `xs.pop(i)` and `takeItem(i)`: `xs` without its element at `i`. */
  function RemoveAt(xs: seq<string>, i: nat): (r: seq<string>)
    requires i < |xs|
    ensures |r| == |xs| - 1
    ensures forall j :: 0 <= j < i ==> r[j] == xs[j]
    ensures forall j :: i <= j < |r| ==> r[j] == xs[j + 1]
  {
    xs[..i] + xs[i + 1..]
  }

  /** The texts the list widget shows for `xs`: their base names. */
  function Basenames(xs: seq<string>): seq<string>
  {
    seq(|xs|, i requires 0 <= i < |xs| => Basename(xs[i]))
  }

  lemma NoDuplicatesAppend(xs: seq<string>, y: string)
    requires NoDuplicates(xs) && y !in xs
    ensures NoDuplicates(xs + [y])
  {
  }

  /** Adding keeps what was there as a prefix, ends up with exactly the files
      that were there or were chosen, and never introduces a duplicate. */
  lemma {:induction false} AddUniqueSpec(xs: seq<string>, ys: seq<string>)
    ensures var r := AddUnique(xs, ys);
            && |xs| <= |r| && r[..|xs|] == xs
            && (forall y :: y in r <==> y in xs || y in ys)
            && (NoDuplicates(xs) ==> NoDuplicates(r))
  {
    if ys != [] {
      var init := ys[..|ys| - 1];
      var y := ys[|ys| - 1];
      assert ys == init + [y];
      AddUniqueSpec(xs, init);
      var zs := AddUnique(xs, init);
      if y !in zs {
        assert (zs + [y])[..|xs|] == zs[..|xs|];
        if NoDuplicates(xs) {
          NoDuplicatesAppend(zs, y);
        }
      }
    }
  }

  /** Choosing only files that are already in the list changes nothing. */
  lemma {:induction false} AddUniqueNoop(xs: seq<string>, ys: seq<string>)
    requires forall y :: y in ys ==> y in xs
    ensures AddUnique(xs, ys) == xs
  {
    if ys != [] {
      var init := ys[..|ys| - 1];
      assert forall y :: y in init ==> y in ys;
      AddUniqueNoop(xs, init);
      assert ys[|ys| - 1] in ys;
    }
  }

  /** Adding the same selection twice is the same as adding it once. */
  lemma AddUniqueIdempotent(xs: seq<string>, ys: seq<string>)
    ensures AddUnique(AddUnique(xs, ys), ys) == AddUnique(xs, ys)
  {
    AddUniqueSpec(xs, ys);
    AddUniqueNoop(AddUnique(xs, ys), ys);
  }

  /** Choosing `ys1` and then `ys2` gives the same list as choosing both at
      once, `ys1` first. */
  lemma {:induction false} AddUniqueConcat(xs: seq<string>, ys1: seq<string>, ys2: seq<string>)
    ensures AddUnique(xs, ys1 + ys2) == AddUnique(AddUnique(xs, ys1), ys2)
  {
    if ys2 == [] {
      assert ys1 + ys2 == ys1;
    } else {
      var init := ys2[..|ys2| - 1];
      AddUniqueConcat(xs, ys1, init);
      var ys := ys1 + ys2;
      assert ys[..|ys| - 1] == ys1 + init;
      assert ys[|ys| - 1] == ys2[|ys2| - 1];
    }
  }

  /** Removing keeps the list free of duplicates and drops exactly the removed
      file. */
  lemma RemoveAtSpec(xs: seq<string>, i: nat)
    requires i < |xs| && NoDuplicates(xs)
    ensures NoDuplicates(RemoveAt(xs, i))
    ensures forall y :: y in RemoveAt(xs, i) <==> y in xs && y != xs[i]
  {
    var r := RemoveAt(xs, i);
    forall y | y in xs && y != xs[i]
      ensures y in r
    {
      var j :| 0 <= j < |xs| && xs[j] == y;
      if j < i {
        assert r[j] == y;
      } else {
        assert r[j - 1] == y;
      }
    }
  }

  /** Removing the last file added undoes adding it. */
  lemma RemoveAfterAdd(xs: seq<string>, y: string)
    requires y !in xs
    ensures AddUnique(xs, [y]) == xs + [y]
    ensures RemoveAt(AddUnique(xs, [y]), |xs|) == xs
  {
    assert [y][..0] == [];
  }

  lemma BasenamesAppend(xs: seq<string>, y: string)
    ensures Basenames(xs + [y]) == Basenames(xs) + [Basename(y)]
  {
  }

  /** Taking row `i` from the list widget and popping position `i` from the
      files keep the two in step. */
  lemma BasenamesRemoveAt(xs: seq<string>, i: nat)
    requires i < |xs|
    ensures Basenames(RemoveAt(xs, i)) == RemoveAt(Basenames(xs), i)
  {
    var r := RemoveAt(xs, i);
    var names := Basenames(xs);
    var a := Basenames(r);
    var b := RemoveAt(names, i);
    assert |a| == |b|;
    forall j | 0 <= j < |a|
      ensures a[j] == b[j]
    {
      if j < i {
        assert a[j] == Basename(xs[j]);
      } else {
        assert a[j] == Basename(xs[j + 1]);
      }
    }
  }

  /** The bound QSpinBox puts on a value. */
  function Clamp(x: int, lo: nat, hi: nat): (r: nat)
    requires lo <= hi
    ensures lo <= r <= hi
    ensures lo <= x <= hi ==> r == x
    ensures x < lo ==> r == lo
    ensures x > hi ==> r == hi
  {
    if x < lo then lo else if x > hi then hi else x
  }

  const MinVideoBitrate: nat := 1
  const MaxVideoBitrate: nat := 50
  const DefaultVideoBitrate: nat := 8
  const MinAudioBitrate: nat := 64
  const MaxAudioBitrate: nat := 320
  const DefaultAudioBitrate: nat := 192

  // ---------------------------------------------------------------------------
  // The progress bar: Qt's QProgressBar with its minimum fixed at 0, as
  // converter.py uses it. A value of -1 shows an empty bar; a maximum of 0
  // is the busy indicator.

  datatype ProgressBar = ProgressBar(maximum: nat, value: int)

  /** A new QProgressBar: range 0..100, reset. */
  const InitialBar := ProgressBar(100, -1)

  /** `setRange(0, maximum)`: a maximum below 0 becomes 0; when the range
      changes and the value falls outside it, the bar is reset to -1. */
  function SetRange(b: ProgressBar, maximum: int): (r: ProgressBar)
    ensures r.maximum == if maximum < 0 then 0 else maximum
    ensures maximum == b.maximum ==> r == b
    ensures -1 <= b.value <= r.maximum ==> r.value == b.value
    ensures maximum != b.maximum && (b.value < -1 || b.value > r.maximum) ==> r.value == -1
  {
    var m: nat := if maximum < 0 then 0 else maximum;
    if maximum == b.maximum then b
    else if b.value < -1 || b.value > m then ProgressBar(m, -1)
    else ProgressBar(m, b.value)
  }

  /** `setValue(value)`: ignored when out of range, unless the bar is the busy
      indicator, which takes any value. */
  function SetValue(b: ProgressBar, value: int): (r: ProgressBar)
    ensures r.maximum == b.maximum
    ensures (0 <= value <= b.maximum || b.maximum == 0) ==> r.value == value
    ensures !(0 <= value <= b.maximum || b.maximum == 0) ==> r == b
  {
    if b.value == value || ((value > b.maximum || value < 0) && b.maximum != 0) then b
    else b.(value := value)
  }

  /** Setting the range 0..`total` and then a value in it shows exactly that
      value of that total, whatever the bar showed before. */
  lemma ShowsValue(b: ProgressBar, current: int, total: int)
    requires 0 <= current <= total
    ensures SetValue(SetRange(b, total), current) == ProgressBar(total, current)
  {
  }

  // ---------------------------------------------------------------------------
  // What the runner's signals change: the button, the bar and the log.

  const AddFilesFirst := "Пожалуйста, добавьте файлы для конвертации"
  const AllConverted := "Конвертация всех файлов завершена успешно!"
  const ErrorPrefix := "Ошибка: "

  datatype View = View(convertEnabled: bool, bar: ProgressBar, log: seq<string>)

  /** The handler of one signal: `update_file_progress` for `file_progress`,
      `update_log` for `progress`, `conversion_finished` for `finished` and
      `conversion_error` for `error`. */
  function React(v: View, e: Event): (w: View)
    ensures w.convertEnabled == (v.convertEnabled || IsTerminal(e))
    ensures |v.log| <= |w.log| && w.log[..|v.log|] == v.log
    ensures e.FileProgress? && 1 <= e.index <= e.total ==> w.bar == ProgressBar(e.total, e.index)
  {
    match e
    case FileProgress(current, total) =>
      var w := v.(bar := SetValue(SetRange(v.bar, total), current));
      if current <= total then ShowsValue(v.bar, current, total); w else w
    case CommandLogged(_) => v.(log := v.log + [Strip(Message(e))])
    case LineLogged(_, _, _) => v.(log := v.log + [Strip(Message(e))])
    case Finished => View(true, SetValue(SetRange(v.bar, 100), 100), v.log + [AllConverted])
    case Error(_) => View(true, SetValue(SetRange(v.bar, 100), 0), v.log + [ErrorPrefix + Message(e)])
  }

  /** The handlers of `events`, in the order the signals were emitted. */
  function ReactAll(v: View, events: seq<Event>): View
  {
    if events == [] then v else React(ReactAll(v, events[..|events| - 1]), events[|events| - 1])
  }

  /** Signals other than `finished` and `error` leave the button as it was. */
  lemma {:induction false} QuietKeepsButton(v: View, events: seq<Event>)
    requires forall j :: 0 <= j < |events| ==> !IsTerminal(events[j])
    ensures ReactAll(v, events).convertEnabled == v.convertEnabled
  {
    if events != [] {
      var init := events[..|events| - 1];
      assert forall j :: 0 <= j < |init| ==> init[j] == events[j];
      QuietKeepsButton(v, init);
    }
  }

  /** The log only grows: what it held stays in front. */
  lemma {:induction false} LogGrows(v: View, events: seq<Event>)
    ensures var w := ReactAll(v, events);
            |v.log| <= |w.log| && w.log[..|v.log|] == v.log
  {
    if events != [] {
      var init := events[..|events| - 1];
      LogGrows(v, init);
      var u := ReactAll(v, init);
      var w := ReactAll(v, events);
      assert w.log[..|u.log|] == u.log;
      assert w.log[..|v.log|] == u.log[..|v.log|];
    }
  }

  /** While a run is in progress the convert button stays disabled: after any
      proper prefix of the trace it is still off. */
  lemma ButtonStaysDisabled(v: View, tasks: seq<FileTask>, runs: seq<ProcessRun>, n: nat)
    requires |runs| == |tasks|
    requires !v.convertEnabled
    requires n < |TraceOf(tasks, runs)|
    ensures !ReactAll(v, TraceOf(tasks, runs)[..n]).convertEnabled
  {
    var t := TraceOf(tasks, runs);
    TraceTerminalLast(tasks, runs);
    var p := t[..n];
    assert forall j :: 0 <= j < |p| ==> p[j] == t[j];
    QuietKeepsButton(v, p);
  }

  /** The screen a finished run leaves, `names[i]` being how an error names
      file `i`: the button enabled, the bar full if every file converted and
      empty otherwise, and the last log line the success message or the error
      about the first file that failed. */
  predicate ShowsOutcome(w: View, names: seq<string>, runs: seq<ProcessRun>)
    requires |runs| == |names|
  {
    var k := FirstFailure(runs);
    && w.convertEnabled
    && w.bar == (if AllSucceeded(runs) then ProgressBar(100, 100) else ProgressBar(100, 0))
    && |w.log| > 0
    && w.log[|w.log| - 1]
       == if AllSucceeded(runs) then AllConverted
          else ErrorPrefix + Message(Error(FailureOf(runs[k], names[k])))
  }

  /** The names errors use for the files of `tasks`. */
  function FileNames(tasks: seq<FileTask>): (r: seq<string>)
    ensures |r| == |tasks|
  {
    seq(|tasks|, j requires 0 <= j < |tasks| => tasks[j].fileName)
  }

  /** Whatever the screen was, handling the whole trace of a run leaves it
      showing the run's outcome. */
  lemma RunEndsScreen(v: View, tasks: seq<FileTask>, runs: seq<ProcessRun>)
    requires |runs| == |tasks|
    ensures ShowsOutcome(ReactAll(v, TraceOf(tasks, runs)), FileNames(tasks), runs)
  {
    var t := TraceOf(tasks, runs);
    TraceBody(tasks, runs);
    var u := ReactAll(v, t[..|t| - 1]);
    assert ReactAll(v, t) == React(u, t[|t| - 1]);
    ShowsValue(u.bar, 100, 100);
    ShowsValue(u.bar, 0, 100);
  }

  /** An error about a file of a job names it by its base name, as the file
      list shows it. */
  lemma FileNamesOfJob(job: Job)
    ensures FileNames(Tasks(job)) == Basenames(job.inputFiles)
  {
    var tasks := Tasks(job);
    forall j | 0 <= j < |tasks|
      ensures FileNames(tasks)[j] == Basenames(job.inputFiles)[j]
    {
      TasksSpec(job, j);
    }
  }

  /** RunEndsScreen for the trace of a job, the failed file named by its
      base name. */
  lemma JobEndsScreen(v: View, job: Job, runs: seq<ProcessRun>)
    requires |runs| == |job.inputFiles|
    ensures ShowsOutcome(ReactAll(v, Trace(job, runs)), Basenames(job.inputFiles), runs)
  {
    RunEndsScreen(v, Tasks(job), runs);
    FileNamesOfJob(job);
  }

  // ---------------------------------------------------------------------------
  // The window.

  class ConverterApp {
    /** `input_files`: the chosen paths. */
    var inputFiles: seq<string>
    /** The texts of the `file_list` widget, one row per file. */
    var fileList: seq<string>
    /** The values of the two spin boxes. */
    var videoBitrate: nat
    var audioBitrate: nat
    /** Whether the convert button is enabled. */
    var convertEnabled: bool
    var bar: ProgressBar
    /** The lines of the log widget. */
    var log: seq<string>
    /** The job of the last conversion thread started, if any. */
    var conversion: Option<Job>

    /** The list widget shows the base name of each file, row by row; no file
        is in the list twice; the spin boxes hold values in their ranges. */
    predicate Valid()
      reads this`inputFiles, this`fileList, this`videoBitrate, this`audioBitrate
    {
      && fileList == Basenames(inputFiles)
      && NoDuplicates(inputFiles)
      && MinVideoBitrate <= videoBitrate <= MaxVideoBitrate
      && MinAudioBitrate <= audioBitrate <= MaxAudioBitrate
    }

    function Screen(): View
      reads this`convertEnabled, this`bar, this`log
    {
      View(convertEnabled, bar, log)
    }

    /** The window as it opens: no files, default bitrates, button enabled,
        bar reset, empty log, no conversion. */
    constructor()
      ensures Valid()
      ensures inputFiles == [] && fileList == []
      ensures videoBitrate == DefaultVideoBitrate && audioBitrate == DefaultAudioBitrate
      ensures Screen() == View(true, InitialBar, [])
      ensures conversion == None
    {
      inputFiles := [];
      fileList := [];
      videoBitrate := DefaultVideoBitrate;
      audioBitrate := DefaultAudioBitrate;
      convertEnabled := true;
      bar := InitialBar;
      log := [];
      conversion := None;
    }

    /** The video spin box set to `value`, bounded to its range. */
    method SetVideoBitrate(value: int)
      requires Valid()
      modifies this`videoBitrate
      ensures Valid()
      ensures videoBitrate == Clamp(value, MinVideoBitrate, MaxVideoBitrate)
    {
      videoBitrate := Clamp(value, MinVideoBitrate, MaxVideoBitrate);
    }

    /** The audio spin box set to `value`, bounded to its range. */
    method SetAudioBitrate(value: int)
      requires Valid()
      modifies this`audioBitrate
      ensures Valid()
      ensures audioBitrate == Clamp(value, MinAudioBitrate, MaxAudioBitrate)
    {
      audioBitrate := Clamp(value, MinAudioBitrate, MaxAudioBitrate);
    }

    /** `add_files`, given the paths the dialog returned: each one not yet in
        the list is appended, and its base name becomes a new row. */
    method AddFiles(fileNames: seq<string>)
      requires Valid()
      modifies this`inputFiles, this`fileList
      ensures Valid()
      ensures inputFiles == AddUnique(old(inputFiles), fileNames)
    {
      for j := 0 to |fileNames|
        invariant Valid()
        invariant inputFiles == AddUnique(old(inputFiles), fileNames[..j])
      {
        var fileName := fileNames[j];
        assert fileNames[..j + 1][..j] == fileNames[..j];
        if fileName !in inputFiles {
          NoDuplicatesAppend(inputFiles, fileName);
          BasenamesAppend(inputFiles, fileName);
          inputFiles := inputFiles + [fileName];
          fileList := fileList + [Basename(fileName)];
        }
      }
      assert fileNames[..|fileNames|] == fileNames;
    }

    /** `remove_selected_file`, given the list widget's current row (-1 when
        no row is selected): the row and its file are removed together. */
    method RemoveSelectedFile(currentRow: int)
      requires Valid()
      requires -1 <= currentRow < |fileList|
      modifies this`inputFiles, this`fileList
      ensures Valid()
      ensures currentRow >= 0 ==>
                inputFiles == RemoveAt(old(inputFiles), currentRow) && fileList == RemoveAt(old(fileList), currentRow)
      ensures currentRow < 0 ==> inputFiles == old(inputFiles) && fileList == old(fileList)
    {
      if currentRow >= 0 {
        BasenamesRemoveAt(inputFiles, currentRow);
        RemoveAtSpec(inputFiles, currentRow);
        fileList := RemoveAt(fileList, currentRow);
        inputFiles := RemoveAt(inputFiles, currentRow);
      }
    }

    /** `clear_files`: the list and the files are emptied together. */
    method ClearFiles()
      requires Valid()
      modifies this`inputFiles, this`fileList
      ensures Valid()
      ensures inputFiles == [] && fileList == []
    {
      fileList := [];
      inputFiles := [];
    }

    /** `start_conversion`, given the folder the dialog returned ("" when it
        was cancelled): with no files it only asks for some; with no folder it
        does nothing; otherwise it disables the button, turns the bar into a
        busy indicator and starts a conversion of the current list. */
    method StartConversion(outputDir: string) returns (started: Option<Job>)
      requires Valid()
      modifies this`convertEnabled, this`bar, this`log, this`conversion
      ensures Valid()
      ensures inputFiles == [] ==>
                && started == None && conversion == old(conversion)
                && Screen() == old(Screen()).(log := old(log) + [AddFilesFirst])
      ensures inputFiles != [] && outputDir == [] ==>
                started == None && conversion == old(conversion) && Screen() == old(Screen())
      ensures inputFiles != [] && outputDir != [] ==>
                && started == Some(Job(inputFiles, outputDir, videoBitrate, audioBitrate))
                && conversion == started
                && !convertEnabled && bar == SetRange(old(bar), 0) && bar.maximum == 0
                && log == old(log)
    {
      if inputFiles == [] {
        log := log + [AddFilesFirst];
        return None;
      }
      if outputDir == [] {
        return None;
      }
      convertEnabled := false;
      bar := SetRange(bar, 0);
      started := Some(Job(inputFiles, outputDir, videoBitrate, audioBitrate));
      conversion := started;
    }

    /** `update_log`: the message is appended stripped. */
    method UpdateLog(message: string)
      modifies this`log
      ensures log == old(log) + [Strip(message)]
    {
      log := log + [Strip(message)];
    }

    /** `update_file_progress`: the bar shows file `current` of `total`. */
    method UpdateFileProgress(current: int, total: int)
      modifies this`bar
      ensures bar == SetValue(SetRange(old(bar), total), current)
      ensures 0 <= current <= total ==> bar == ProgressBar(total, current)
    {
      if 0 <= current <= total {
        ShowsValue(bar, current, total);
      }
      bar := SetRange(bar, total);
      bar := SetValue(bar, current);
    }

    /** `conversion_finished`: full bar, button enabled, success logged. */
    method ConversionFinished()
      modifies this`convertEnabled, this`bar, this`log
      ensures bar == SetValue(SetRange(old(bar), 100), 100) == ProgressBar(100, 100)
      ensures convertEnabled
      ensures log == old(log) + [AllConverted]
    {
      ShowsValue(bar, 100, 100);
      bar := SetRange(bar, 100);
      bar := SetValue(bar, 100);
      convertEnabled := true;
      log := log + [AllConverted];
    }

    /** `conversion_error`: empty bar, button enabled, the error logged. */
    method ConversionError(errorMessage: string)
      modifies this`convertEnabled, this`bar, this`log
      ensures bar == SetValue(SetRange(old(bar), 100), 0) == ProgressBar(100, 0)
      ensures convertEnabled
      ensures log == old(log) + [ErrorPrefix + errorMessage]
    {
      ShowsValue(bar, 0, 100);
      bar := SetRange(bar, 100);
      bar := SetValue(bar, 0);
      convertEnabled := true;
      log := log + [ErrorPrefix + errorMessage];
    }

    /** One signal delivered to the handler it is connected to. */
    method Deliver(e: Event)
      modifies this`convertEnabled, this`bar, this`log
      ensures Screen() == React(old(Screen()), e)
    {
      match e {
        case FileProgress(current, total) => UpdateFileProgress(current, total);
        case CommandLogged(_) => UpdateLog(Message(e));
        case LineLogged(_, _, _) => UpdateLog(Message(e));
        case Finished => ConversionFinished();
        case Error(_) => ConversionError(Message(e));
      }
    }

    /** The signals of a run delivered one by one, in the order emitted. */
    method DeliverAll(events: seq<Event>)
      modifies this`convertEnabled, this`bar, this`log
      ensures Screen() == ReactAll(old(Screen()), events)
    {
      for j := 0 to |events|
        invariant Screen() == ReactAll(old(Screen()), events[..j])
      {
        assert events[..j + 1][..j] == events[..j];
        Deliver(events[j]);
      }
      assert events[..|events|] == events;
    }

    /** A click on the convert button followed by the whole run of the thread
        it starts, its signals handled in order; `runs[i]` is how the process
        for file `i` behaves. A run that starts ends with the button enabled
        and the bar full exactly when every file converted; the window is then
        what the handlers make of the trace, starting from the screen the
        click left. A click that starts nothing only logs the request for
        files when the list is empty. */
    method Convert(outputDir: string, runs: seq<ProcessRun>) returns (started: Option<Job>, events: seq<Event>)
      requires Valid()
      requires |runs| == |inputFiles|
      modifies this`convertEnabled, this`bar, this`log, this`conversion
      ensures Valid()
      ensures started.Some? <==> inputFiles != [] && outputDir != []
      ensures started.Some? ==>
                && started.value == Job(inputFiles, outputDir, videoBitrate, audioBitrate)
                && events == Trace(started.value, runs)
                && ShowsOutcome(Screen(), Basenames(inputFiles), runs)
      ensures started.None? ==> events == [] && conversion == old(conversion)
      ensures started.None? ==>
                Screen() == if inputFiles == [] then old(Screen()).(log := old(log) + [AddFilesFirst]) else old(Screen())
      ensures started.Some? ==>
                && conversion == started
                && Screen() == ReactAll(View(false, SetRange(old(bar), 0), old(log)), events)
    {
      started := StartConversion(outputDir);
      events := [];
      if started.Some? {
        events := RunJob(started.value, runs);
      }
    }

    /** The thread's run over `job` and the delivery of its signals. */
    method RunJob(job: Job, runs: seq<ProcessRun>) returns (events: seq<Event>)
      requires |runs| == |job.inputFiles|
      modifies this`convertEnabled, this`bar, this`log
      ensures events == Trace(job, runs)
      ensures Screen() == ReactAll(old(Screen()), events)
      ensures ShowsOutcome(Screen(), Basenames(job.inputFiles), runs)
    {
      events := Run(job, runs);
      DeliverAll(events);
      JobEndsScreen(old(Screen()), job, runs);
    }
  }
}
