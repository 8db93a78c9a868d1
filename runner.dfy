/**
 * The batch runner of converter.py (`ConversionThread.run`): it converts the
 * files of a job one after another and reports what happens as signals. Here
 * the signals are an ordered trace of events, and each launched `ffmpeg`
 * process is given by what it prints and how it ends.
 */
module Runner {
  import opened Seqs
  import opened Text
  import opened Paths
  import opened Command

  /** A conversion job: a snapshot of the file list, the chosen output
      directory and the two bitrates. */
  datatype Job = Job(inputFiles: seq<string>, outputDir: string, videoBitrate: nat, audioBitrate: nat)

  /** What the trace needs of one file of a job: the command line logged
      when it is launched and the name an error about it reports. */
  datatype FileTask = FileTask(commandLine: string, fileName: string)

  /** What one launched process does, as the runner sees it: it prints `lines`
      and then either exits with `code`, or an exception with `message` is
      raised (the launch itself failing, reading its output, or waiting). */
  datatype ProcessRun =
    | Exited(lines: seq<string>, code: int)
    | Raised(lines: seq<string>, message: string)

  /** The payload of the `error` signal: the base name of the file whose
      conversion failed, or the text of an unexpected exception. */
  datatype Failure = FileFailed(fileName: string) | Fault(message: string)

  /** The signals the runner emits: `file_progress(index, total)`; `progress`
      with the command line, its arguments joined by spaces; `progress` with
      one output line of file `index` of `total`; `finished`; `error`. The
      text a `progress` or `error` signal carries is `Message` of the event. */
  datatype Event =
    | FileProgress(index: nat, total: nat)
    | CommandLogged(commandLine: string)
    | LineLogged(index: nat, total: nat, line: string)
    | Finished
    | Error(failure: Failure)

  /** The text of a `progress` or `error` signal, formatted as converter.py
      does; an output line is shown stripped of surrounding white space. */
  function Message(e: Event): string
    requires e.CommandLogged? || e.LineLogged? || e.Error?
  {
    match e
    case CommandLogged(commandLine) => "Запуск: " + commandLine
    case LineLogged(index, total, line) => "[" + Decimal(index) + "/" + Decimal(total) + "] " + Strip(line)
    case Error(FileFailed(fileName)) => "Ошибка при конвертации файла " + fileName
    case Error(Fault(message)) => message
  }

  /** The prefix `[index/total]` of an output line's message. */
  function Counter(index: nat, total: nat): string
  {
    "[" + Decimal(index) + "/" + Decimal(total) + "]"
  }

  /** What `update_log` shows for an output line, which strips the whole
      message again: the message itself when the line has any text, and the
      bare counter, without its trailing space, when the line is blank. */
  lemma ShownLine(index: nat, total: nat, line: string)
    ensures var m := Message(LineLogged(index, total, line));
            Strip(m) == if Strip(line) == [] then Counter(index, total) else m
  {
    var m := Message(LineLogged(index, total, line));
    var c := Counter(index, total);
    var s := Strip(line);
    assert m == c + " " + s;
    assert c[|c| - 1] == ']';
    if s == [] {
      assert m == c + " ";
      assert m[..|m| - 1] == c;
      StripBlankEnd(c);
    } else {
      StripSpec(line);
      assert m[|m| - 1] == s[|s| - 1];
      StripUnchanged(m);
    }
  }

  predicate IsTerminal(e: Event)
  {
    e.Finished? || e.Error?
  }

  /** A file converts successfully when its process exits with code 0. */
  predicate Succeeded(run: ProcessRun)
  {
    run.Exited? && run.code == 0
  }

  predicate AllSucceeded(runs: seq<ProcessRun>)
  {
    forall j :: 0 <= j < |runs| ==> Succeeded(runs[j])
  }

  /** The position of the first file that does not convert, or `|runs|`. */
  function FirstFailure(runs: seq<ProcessRun>): (k: nat)
    ensures k <= |runs|
    ensures forall j :: 0 <= j < k ==> Succeeded(runs[j])
    ensures k < |runs| ==> !Succeeded(runs[k])
  {
    if runs == [] || !Succeeded(runs[0]) then 0
    else 1 + FirstFailure(runs[1..])
  }

  /** How many files the runner starts: all of them, or up to and including
      the first that fails. */
  function StartedCount(runs: seq<ProcessRun>): nat
  {
    var k := FirstFailure(runs);
    if k == |runs| then k else k + 1
  }

  /** The vector launched for the file at position `k`. */
  function FileCommand(job: Job, k: nat): seq<string>
    requires k < |job.inputFiles|
  {
    var inputFile := job.inputFiles[k];
    FfmpegCommand(inputFile, OutputPath(job.outputDir, inputFile), job.videoBitrate, job.audioBitrate)
  }

  /** The task of each file of a job, in order. */
  function Tasks(job: Job): seq<FileTask>
  {
    seq(|job.inputFiles|, k requires 0 <= k < |job.inputFiles| =>
      FileTask(JoinWords(FileCommand(job, k)), Basename(job.inputFiles[k])))
  }

  /** One `progress` event per output line of file `index`, in order. */
  function LineEvents(index: nat, total: nat, lines: seq<string>): (r: seq<Event>)
    ensures |r| == |lines|
    ensures forall j :: 0 <= j < |lines| ==> r[j] == LineLogged(index, total, lines[j])
  {
    if lines == [] then []
    else LineEvents(index, total, lines[..|lines| - 1]) + [LineLogged(index, total, lines[|lines| - 1])]
  }

  /** The error reported for a file that does not convert. */
  function FailureOf(run: ProcessRun, fileName: string): Failure
    requires !Succeeded(run)
  {
    match run
    case Exited(_, _) => FileFailed(fileName)
    case Raised(_, message) => Fault(message)
  }

  /** The `error` event that ends file `k`, if its conversion fails. */
  function Outcome(tasks: seq<FileTask>, runs: seq<ProcessRun>, k: nat): seq<Event>
    requires |runs| == |tasks| && k < |runs|
  {
    if Succeeded(runs[k]) then [] else [Error(FailureOf(runs[k], tasks[k].fileName))]
  }

  /** The events of the file at position `k` up to its outcome: its number,
      its command line and its output lines. */
  function Opening(tasks: seq<FileTask>, runs: seq<ProcessRun>, k: nat): seq<Event>
    requires |runs| == |tasks| && k < |runs|
  {
    var total := |tasks|;
    [FileProgress(k + 1, total)] + [CommandLogged(tasks[k].commandLine)] + LineEvents(k + 1, total, runs[k].lines)
  }

  /** The events of the file at position `k`, ending in an error if it fails. */
  function FileEvents(tasks: seq<FileTask>, runs: seq<ProcessRun>, k: nat): seq<Event>
    requires |runs| == |tasks| && k < |runs|
  {
    Opening(tasks, runs, k) + Outcome(tasks, runs, k)
  }

  /** The events of each of the first `k` files, one block per file. */
  function Blocks(tasks: seq<FileTask>, runs: seq<ProcessRun>, k: nat): (bs: seq<seq<Event>>)
    requires |runs| == |tasks| && k <= |runs|
    ensures |bs| == k
  {
    seq(k, j requires 0 <= j < k => FileEvents(tasks, runs, j))
  }

  /** The blocks laid end to end. */
  function Flatten(bs: seq<seq<Event>>): seq<Event>
  {
    if bs == [] then [] else Flatten(bs[..|bs| - 1]) + bs[|bs| - 1]
  }

  /** The events of the first `k` files. */
  function Started(tasks: seq<FileTask>, runs: seq<ProcessRun>, k: nat): seq<Event>
    requires |runs| == |tasks| && k <= |runs|
  {
    Flatten(Blocks(tasks, runs, k))
  }

  /** One more file started appends that file's events. */
  lemma StartedStep(tasks: seq<FileTask>, runs: seq<ProcessRun>, k: nat)
    requires |runs| == |tasks| && k < |runs|
    ensures Started(tasks, runs, k + 1) == Started(tasks, runs, k) + FileEvents(tasks, runs, k)
  {
    var bs := Blocks(tasks, runs, k + 1);
    assert bs[..k] == Blocks(tasks, runs, k);
  }

  /** The events of a run over `tasks`: the files up to the first failure,
      and `finished` when there is none. */
  function TraceOf(tasks: seq<FileTask>, runs: seq<ProcessRun>): seq<Event>
    requires |runs| == |tasks|
  {
    var k := FirstFailure(runs);
    if k == |runs| then Started(tasks, runs, k) + [Finished] else Started(tasks, runs, k + 1)
  }

  /** The whole trace of a job. */
  function Trace(job: Job, runs: seq<ProcessRun>): seq<Event>
    requires |runs| == |job.inputFiles|
  {
    TraceOf(Tasks(job), runs)
  }

  /** The trace of a run whose file `i` is the first that fails. */
  lemma TraceFails(tasks: seq<FileTask>, runs: seq<ProcessRun>, i: nat)
    requires |runs| == |tasks| && i < |runs|
    requires forall j :: 0 <= j < i ==> Succeeded(runs[j])
    requires !Succeeded(runs[i])
    ensures TraceOf(tasks, runs) == Started(tasks, runs, i) + FileEvents(tasks, runs, i)
  {
    assert FirstFailure(runs) == i;
    StartedStep(tasks, runs, i);
  }

  /** The trace of a run in which every file converts. */
  lemma TraceSucceeds(tasks: seq<FileTask>, runs: seq<ProcessRun>)
    requires |runs| == |tasks|
    requires forall j :: 0 <= j < |runs| ==> Succeeded(runs[j])
    ensures TraceOf(tasks, runs) == Started(tasks, runs, |runs|) + [Finished]
  {
    assert FirstFailure(runs) == |runs|;
  }

  /** The steps of `Run`'s loop, each stated on the events it has emitted. */
  lemma RunContinues(job: Job, runs: seq<ProcessRun>, i: nat, before: seq<Event>, after: seq<Event>)
    requires |runs| == |job.inputFiles| && i < |runs|
    requires before == Started(Tasks(job), runs, i)
    requires after == before + FileEvents(Tasks(job), runs, i)
    requires i <= FirstFailure(runs) && Succeeded(runs[i])
    ensures after == Started(Tasks(job), runs, i + 1)
    ensures i + 1 <= FirstFailure(runs)
  {
    StartedStep(Tasks(job), runs, i);
  }

  lemma RunStops(job: Job, runs: seq<ProcessRun>, i: nat, before: seq<Event>, after: seq<Event>)
    requires |runs| == |job.inputFiles| && i < |runs|
    requires i <= FirstFailure(runs) && !Succeeded(runs[i])
    requires before == Started(Tasks(job), runs, i)
    requires after == before + FileEvents(Tasks(job), runs, i)
    ensures after == Trace(job, runs)
  {
    TraceFails(Tasks(job), runs, i);
  }

  lemma RunCompletes(job: Job, runs: seq<ProcessRun>, events: seq<Event>)
    requires |runs| == |job.inputFiles|
    requires |runs| <= FirstFailure(runs)
    requires events == Started(Tasks(job), runs, |runs|)
    ensures events + [Finished] == Trace(job, runs)
  {
    TraceSucceeds(Tasks(job), runs);
  }

  /** The loop over a process's output: one `progress` event per line, in order. */
  method LogLines(events: seq<Event>, index: nat, total: nat, lines: seq<string>) returns (logged: seq<Event>)
    ensures logged == events + LineEvents(index, total, lines)
  {
    logged := events;
    for j := 0 to |lines|
      invariant logged == events + LineEvents(index, total, lines[..j])
    {
      assert lines[..j + 1][..j] == lines[..j];
      logged := logged + [LineLogged(index, total, lines[j])];
    }
    assert lines[..|lines|] == lines;
  }

  /** One pass of the loop in `run`: the events of the file at position `i`
      appended to `events`, and whether the run stops after it. */
  method ConvertFile(job: Job, runs: seq<ProcessRun>, i: nat, events: seq<Event>) returns (logged: seq<Event>, stop: bool)
    requires |runs| == |job.inputFiles| && i < |runs|
    ensures logged == events + FileEvents(Tasks(job), runs, i)
    ensures stop == !Succeeded(runs[i])
  {
    var totalFiles := |job.inputFiles|;
    var index := i + 1;
    var inputFile := job.inputFiles[i];
    logged := events + [FileProgress(index, totalFiles)];
    var outputFile := OutputPath(job.outputDir, inputFile);
    var cmd := FfmpegCommand(inputFile, outputFile, job.videoBitrate, job.audioBitrate);
    var commandLine := JoinWords(cmd);
    logged := logged + [CommandLogged(commandLine)];
    logged := LogLines(logged, index, totalFiles, runs[i].lines);
    ghost var launched := logged;
    LaunchedEvents(job, runs, i, events, launched);
    logged, stop := CheckExit(job, runs, i, logged);
    FileEventsAfter(job, runs, i, events, launched, logged);
  }

  /** The end of one loop pass: after waiting for the process, an error for
      a non-zero exit code, or for the exception raised, stops the run. */
  method CheckExit(job: Job, runs: seq<ProcessRun>, i: nat, launched: seq<Event>) returns (logged: seq<Event>, stop: bool)
    requires |runs| == |job.inputFiles| && i < |runs|
    ensures logged == launched + Outcome(Tasks(job), runs, i)
    ensures stop == !Succeeded(runs[i])
  {
    OutcomeOf(job, runs, i);
    match runs[i] {
      case Raised(_, message) =>
        logged := launched + [Error(Fault(message))];
        stop := true;
      case Exited(_, code) =>
        if code != 0 {
          logged := launched + [Error(FileFailed(Basename(job.inputFiles[i])))];
          stop := true;
        } else {
          logged := launched;
          stop := false;
        }
    }
  }

  /** What ConvertFile has emitted once the process's output is read. */
  lemma LaunchedEvents(job: Job, runs: seq<ProcessRun>, i: nat, events: seq<Event>, launched: seq<Event>)
    requires |runs| == |job.inputFiles| && i < |runs|
    requires launched == events + [FileProgress(i + 1, |job.inputFiles|)]
                        + [CommandLogged(JoinWords(FileCommand(job, i)))]
                        + LineEvents(i + 1, |job.inputFiles|, runs[i].lines)
    ensures launched == events + Opening(Tasks(job), runs, i)
  {
    var progress := [FileProgress(i + 1, |job.inputFiles|)];
    var command := [CommandLogged(JoinWords(FileCommand(job, i)))];
    var lines := LineEvents(i + 1, |job.inputFiles|, runs[i].lines);
    TasksSpec(job, i);
    AppendAssoc(events, progress, command);
    AppendAssoc(events, progress + command, lines);
  }

  /** The outcome of file `i` of a job, as ConvertFile decides it. */
  lemma OutcomeOf(job: Job, runs: seq<ProcessRun>, i: nat)
    requires |runs| == |job.inputFiles| && i < |runs|
    ensures runs[i].Raised? ==> Outcome(Tasks(job), runs, i) == [Error(Fault(runs[i].message))]
    ensures runs[i].Exited? && runs[i].code != 0 ==>
              Outcome(Tasks(job), runs, i) == [Error(FileFailed(Basename(job.inputFiles[i])))]
    ensures Succeeded(runs[i]) ==> Outcome(Tasks(job), runs, i) == []
  {
    TasksSpec(job, i);
  }

  lemma FileEventsAfter(job: Job, runs: seq<ProcessRun>, i: nat, events: seq<Event>, launched: seq<Event>, logged: seq<Event>)
    requires |runs| == |job.inputFiles| && i < |runs|
    requires launched == events + Opening(Tasks(job), runs, i)
    requires logged == launched + Outcome(Tasks(job), runs, i)
    ensures logged == events + FileEvents(Tasks(job), runs, i)
  {
    AppendAssoc(events, Opening(Tasks(job), runs, i), Outcome(Tasks(job), runs, i));
  }

  /** `ConversionThread.run`: `runs[i]` is how the process for file `i` behaves. */
  method Run(job: Job, runs: seq<ProcessRun>) returns (events: seq<Event>)
    requires |runs| == |job.inputFiles|
    ensures events == Trace(job, runs)
  {
    events := [];
    var totalFiles := |job.inputFiles|;
    for i := 0 to totalFiles
      invariant events == Started(Tasks(job), runs, i)
      invariant i <= FirstFailure(runs)
    {
      ghost var before := events;
      var stop;
      events, stop := ConvertFile(job, runs, i, events);
      if stop {
        RunStops(job, runs, i, before, events);
        return;
      }
      RunContinues(job, runs, i, before, events);
    }
    RunCompletes(job, runs, events);
    events := events + [Finished];
  }

  // ---------------------------------------------------------------------------
  // Properties of the trace, stated through the events of one kind.

  datatype Kind = ProgressKind | CommandKind | LineKind(file: nat) | FinishedKind | ErrorKind | TerminalKind
  predicate Matches(kind: Kind, e: Event)
  {
    match kind
    case ProgressKind => e.FileProgress?
    case CommandKind => e.CommandLogged?
    case LineKind(i) => e.LineLogged? && e.index == i
    case FinishedKind => e.Finished?
    case ErrorKind => e.Error?
    case TerminalKind => IsTerminal(e)
  }
  /** What the filter for `kind` keeps of one event. */
  function Keep(e: Event, kind: Kind): seq<Event>
  {
    if Matches(kind, e) then [e] else []
  }

  function Filter(events: seq<Event>, kind: Kind): seq<Event>
  {
    if events == [] then [] else Filter(events[..|events| - 1], kind) + Keep(events[|events| - 1], kind)
  }
  lemma {:induction false} FilterConcat(a: seq<Event>, b: seq<Event>, kind: Kind)
    ensures Filter(a + b, kind) == Filter(a, kind) + Filter(b, kind)
  {
    if b == [] {
      assert a + b == a;
    } else {
      assert (a + b)[..|a + b| - 1] == a + b[..|b| - 1];
      FilterConcat(a, b[..|b| - 1], kind);
    }
  }
  lemma FilterSingle(e: Event, kind: Kind)
    ensures Filter([e], kind) == Keep(e, kind)
  {
    assert [e][..0] == [];
  }
  /** Every event of a kind is kept by the filter for that kind. */
  lemma {:induction false} FilterKeeps(events: seq<Event>, kind: Kind, j: nat)
    requires j < |events| && Matches(kind, events[j])
    ensures events[j] in Filter(events, kind)
  {
    if j < |events| - 1 {
      FilterKeeps(events[..|events| - 1], kind, j);
    }
  }

  lemma {:induction false} FilterLineEvents(index: nat, total: nat, lines: seq<string>, kind: Kind)
    ensures Filter(LineEvents(index, total, lines), kind)
         == if kind == LineKind(index) then LineEvents(index, total, lines) else []
  {
    if lines != [] {
      var init := LineEvents(index, total, lines[..|lines| - 1]);
      var last := LineLogged(index, total, lines[|lines| - 1]);
      FilterLineEvents(index, total, lines[..|lines| - 1], kind);
      AppendLast(init, last);
      assert Filter(LineEvents(index, total, lines), kind) == Filter(init, kind) + Keep(last, kind);
      if kind == LineKind(index) {
        assert Keep(last, kind) == [last];
      } else {
        assert Keep(last, kind) == [];
        AppendEmpty(Filter(init, kind));
      }
    }
  }

  /** What the filter for `kind` keeps of the events of file `k`. */
  function FileView(tasks: seq<FileTask>, runs: seq<ProcessRun>, k: nat, kind: Kind): seq<Event>
    requires |runs| == |tasks| && k < |runs|
  {
    match kind
    case ProgressKind => [FileProgress(k + 1, |tasks|)]
    case CommandKind => [CommandLogged(tasks[k].commandLine)]
    case LineKind(i) => if i == k + 1 then LineEvents(k + 1, |tasks|, runs[k].lines) else []
    case FinishedKind => []
    case ErrorKind => Outcome(tasks, runs, k)
    case TerminalKind => Outcome(tasks, runs, k)
  }

  /** The filter of one file's events, segment by segment. */
  lemma FilterFileEventsSplit(tasks: seq<FileTask>, runs: seq<ProcessRun>, k: nat, kind: Kind)
    requires |runs| == |tasks| && k < |runs|
    ensures Filter(FileEvents(tasks, runs, k), kind)
            == Keep(FileProgress(k + 1, |tasks|), kind) + Keep(CommandLogged(tasks[k].commandLine), kind)
               + Filter(LineEvents(k + 1, |tasks|, runs[k].lines), kind) + Filter(Outcome(tasks, runs, k), kind)
  {
    var progress := [FileProgress(k + 1, |tasks|)];
    var command := [CommandLogged(tasks[k].commandLine)];
    var lines := LineEvents(k + 1, |tasks|, runs[k].lines);
    var outcome := Outcome(tasks, runs, k);
    FilterConcat(progress + command + lines, outcome, kind);
    FilterConcat(progress + command, lines, kind);
    FilterConcat(progress, command, kind);
    FilterSingle(progress[0], kind);
    FilterSingle(command[0], kind);
  }

  /** The outcome of a file is kept exactly by the error and terminal filters. */
  lemma FilterOutcome(tasks: seq<FileTask>, runs: seq<ProcessRun>, k: nat, kind: Kind)
    requires |runs| == |tasks| && k < |runs|
    ensures Filter(Outcome(tasks, runs, k), kind)
         == if kind == ErrorKind || kind == TerminalKind then Outcome(tasks, runs, k) else []
  {
    if Succeeded(runs[k]) {
      assert Outcome(tasks, runs, k) == [];
    } else {
      FilterError(FailureOf(runs[k], tasks[k].fileName), kind);
    }
  }

  lemma FilterError(f: Failure, kind: Kind)
    ensures Filter([Error(f)], kind) == if kind == ErrorKind || kind == TerminalKind then [Error(f)] else []
  {
    FilterSingle(Error(f), kind);
  }

  lemma FilterFileProgress(tasks: seq<FileTask>, runs: seq<ProcessRun>, k: nat)
    requires |runs| == |tasks| && k < |runs|
    ensures Filter(FileEvents(tasks, runs, k), ProgressKind) == [FileProgress(k + 1, |tasks|)]
  {
    var progress := FileProgress(k + 1, |tasks|);
    FilterFileEventsSplit(tasks, runs, k, ProgressKind);
    assert Keep(progress, ProgressKind) == [progress];
    assert Keep(CommandLogged(tasks[k].commandLine), ProgressKind) == [];
    FilterLineEvents(k + 1, |tasks|, runs[k].lines, ProgressKind);
    FilterOutcome(tasks, runs, k, ProgressKind);
    assert Filter(FileEvents(tasks, runs, k), ProgressKind) == [progress] + [] + [] + [];
  }

  lemma FilterFileCommand(tasks: seq<FileTask>, runs: seq<ProcessRun>, k: nat)
    requires |runs| == |tasks| && k < |runs|
    ensures Filter(FileEvents(tasks, runs, k), CommandKind) == [CommandLogged(tasks[k].commandLine)]
  {
    var command := CommandLogged(tasks[k].commandLine);
    FilterFileEventsSplit(tasks, runs, k, CommandKind);
    assert Keep(FileProgress(k + 1, |tasks|), CommandKind) == [];
    assert Keep(command, CommandKind) == [command];
    FilterLineEvents(k + 1, |tasks|, runs[k].lines, CommandKind);
    FilterOutcome(tasks, runs, k, CommandKind);
    assert Filter(FileEvents(tasks, runs, k), CommandKind) == [] + [command] + [] + [];
  }

  lemma FilterFileLines(tasks: seq<FileTask>, runs: seq<ProcessRun>, k: nat, i: nat)
    requires |runs| == |tasks| && k < |runs|
    ensures Filter(FileEvents(tasks, runs, k), LineKind(i))
         == if i == k + 1 then LineEvents(k + 1, |tasks|, runs[k].lines) else []
  {
    var kind := LineKind(i);
    var lines := LineEvents(k + 1, |tasks|, runs[k].lines);
    FilterFileEventsSplit(tasks, runs, k, kind);
    assert Keep(FileProgress(k + 1, |tasks|), kind) == [];
    assert Keep(CommandLogged(tasks[k].commandLine), kind) == [];
    FilterOutcome(tasks, runs, k, kind);
    var kept := Filter(lines, kind);
    assert Filter(FileEvents(tasks, runs, k), kind) == [] + [] + kept + [];
    AppendEmpty(kept);
    FilterLineEvents(k + 1, |tasks|, runs[k].lines, kind);
    if i == k + 1 {
      assert kept == lines;
    } else {
      assert kept == [];
    }
  }

  lemma FilterFileFinished(tasks: seq<FileTask>, runs: seq<ProcessRun>, k: nat)
    requires |runs| == |tasks| && k < |runs|
    ensures Filter(FileEvents(tasks, runs, k), FinishedKind) == []
  {
    FilterFileEventsSplit(tasks, runs, k, FinishedKind);
    FilterLineEvents(k + 1, |tasks|, runs[k].lines, FinishedKind);
    FilterOutcome(tasks, runs, k, FinishedKind);
  }

  lemma FilterFileOutcome(tasks: seq<FileTask>, runs: seq<ProcessRun>, k: nat, kind: Kind)
    requires |runs| == |tasks| && k < |runs|
    requires kind == ErrorKind || kind == TerminalKind
    ensures Filter(FileEvents(tasks, runs, k), kind) == Outcome(tasks, runs, k)
  {
    FilterFileEventsSplit(tasks, runs, k, kind);
    FilterLineEvents(k + 1, |tasks|, runs[k].lines, kind);
    FilterOutcome(tasks, runs, k, kind);
    AppendEmpty(Outcome(tasks, runs, k));
  }

  /** The file indices 1..k of `total`, as progress events. */
  function Progresses(total: nat, k: nat): (r: seq<Event>)
    ensures |r| == k
  {
    seq(k, j requires 0 <= j < k => FileProgress(j + 1, total))
  }

  /** The command lines of the first `k` tasks, as log events. */
  function Commands(tasks: seq<FileTask>, k: nat): (r: seq<Event>)
    requires k <= |tasks|
    ensures |r| == k
  {
    seq(k, j requires 0 <= j < k => CommandLogged(tasks[j].commandLine))
  }

  /** What one kind sees of one file's events. */
  lemma FilterFileEvents(tasks: seq<FileTask>, runs: seq<ProcessRun>, k: nat, kind: Kind)
    requires |runs| == |tasks| && k < |runs|
    ensures Filter(FileEvents(tasks, runs, k), kind) == FileView(tasks, runs, k, kind)
  {
    match kind
    case ProgressKind => FilterFileProgress(tasks, runs, k);
    case CommandKind => FilterFileCommand(tasks, runs, k);
    case LineKind(i) => FilterFileLines(tasks, runs, k, i);
    case FinishedKind => FilterFileFinished(tasks, runs, k);
    case ErrorKind => FilterFileOutcome(tasks, runs, k, kind);
    case TerminalKind => FilterFileOutcome(tasks, runs, k, kind);
  }

  /** The filter of each block. */
  function FilterEach(bs: seq<seq<Event>>, kind: Kind): (r: seq<seq<Event>>)
    ensures |r| == |bs|
  {
    seq(|bs|, j requires 0 <= j < |bs| => Filter(bs[j], kind))
  }

  /** Filtering the blocks laid end to end is filtering each and laying the
      results end to end. */
  lemma {:induction false} FilterFlatten(bs: seq<seq<Event>>, kind: Kind)
    ensures Filter(Flatten(bs), kind) == Flatten(FilterEach(bs, kind))
  {
    if bs != [] {
      var init := bs[..|bs| - 1];
      FilterFlatten(init, kind);
      FilterConcat(Flatten(init), bs[|bs| - 1], kind);
      var fe := FilterEach(bs, kind);
      assert fe[..|fe| - 1] == FilterEach(init, kind);
    }
  }

  /** What one kind sees of each of the first `k` files. */
  function Views(tasks: seq<FileTask>, runs: seq<ProcessRun>, k: nat, kind: Kind): (vs: seq<seq<Event>>)
    requires |runs| == |tasks| && k <= |runs|
    ensures |vs| == k
  {
    seq(k, j requires 0 <= j < k => FileView(tasks, runs, j, kind))
  }

  lemma FilterStarted(tasks: seq<FileTask>, runs: seq<ProcessRun>, k: nat, kind: Kind)
    requires |runs| == |tasks| && k <= |runs|
    ensures Filter(Started(tasks, runs, k), kind) == Flatten(Views(tasks, runs, k, kind))
  {
    var bs := Blocks(tasks, runs, k);
    FilterFlatten(bs, kind);
    forall j | 0 <= j < k
      ensures FilterEach(bs, kind)[j] == Views(tasks, runs, k, kind)[j]
    {
      FilterFileEvents(tasks, runs, j, kind);
    }
    assert FilterEach(bs, kind) == Views(tasks, runs, k, kind);
  }

  lemma ViewsStep(tasks: seq<FileTask>, runs: seq<ProcessRun>, k: nat, kind: Kind)
    requires |runs| == |tasks| && 0 < k <= |runs|
    ensures Flatten(Views(tasks, runs, k, kind)) == Flatten(Views(tasks, runs, k - 1, kind)) + FileView(tasks, runs, k - 1, kind)
  {
    var vs := Views(tasks, runs, k, kind);
    assert vs[..k - 1] == Views(tasks, runs, k - 1, kind);
  }

  /** The first `k` files announce themselves as 1..k of the total, in order. */
  lemma {:induction false} StartedProgress(tasks: seq<FileTask>, runs: seq<ProcessRun>, k: nat)
    requires |runs| == |tasks| && k <= |runs|
    ensures Flatten(Views(tasks, runs, k, ProgressKind)) == Progresses(|tasks|, k)
  {
    if k > 0 {
      StartedProgress(tasks, runs, k - 1);
      ViewsStep(tasks, runs, k, ProgressKind);
      assert Progresses(|tasks|, k) == Progresses(|tasks|, k - 1) + [FileProgress(k, |tasks|)];
    }
  }

  /** The first `k` files log their command lines, in order. */
  lemma {:induction false} StartedCommands(tasks: seq<FileTask>, runs: seq<ProcessRun>, k: nat)
    requires |runs| == |tasks| && k <= |runs|
    ensures Flatten(Views(tasks, runs, k, CommandKind)) == Commands(tasks, k)
  {
    if k > 0 {
      StartedCommands(tasks, runs, k - 1);
      ViewsStep(tasks, runs, k, CommandKind);
      assert Commands(tasks, k) == Commands(tasks, k - 1) + [CommandLogged(tasks[k - 1].commandLine)];
    }
  }

  /** The output lines of file `i` appear only during file `i`. */
  lemma {:induction false} StartedLines(tasks: seq<FileTask>, runs: seq<ProcessRun>, k: nat, i: nat)
    requires |runs| == |tasks| && k <= |runs|
    ensures Flatten(Views(tasks, runs, k, LineKind(i)))
         == if 1 <= i <= k then LineEvents(i, |tasks|, runs[i - 1].lines) else []
  {
    if k > 0 {
      StartedLines(tasks, runs, k - 1, i);
      ViewsStep(tasks, runs, k, LineKind(i));
    }
  }

  /** Files emit no `finished`, and files before the first failure no
      `error`. */
  lemma {:induction false} StartedQuiet(tasks: seq<FileTask>, runs: seq<ProcessRun>, k: nat, kind: Kind)
    requires |runs| == |tasks| && k <= |runs|
    requires kind == FinishedKind || ((kind == ErrorKind || kind == TerminalKind) && k <= FirstFailure(runs))
    ensures Flatten(Views(tasks, runs, k, kind)) == []
  {
    if k > 0 {
      StartedQuiet(tasks, runs, k - 1, kind);
      ViewsStep(tasks, runs, k, kind);
    }
  }

  /** Before the first failure, the filter for `finished`, or for errors,
      keeps nothing. */
  lemma FilterStartedQuiet(tasks: seq<FileTask>, runs: seq<ProcessRun>, k: nat, kind: Kind)
    requires |runs| == |tasks| && k <= |runs|
    requires kind == FinishedKind || ((kind == ErrorKind || kind == TerminalKind) && k <= FirstFailure(runs))
    ensures Filter(Started(tasks, runs, k), kind) == []
  {
    FilterStarted(tasks, runs, k, kind);
    StartedQuiet(tasks, runs, k, kind);
  }

  /** Filtering the trace by a kind that `finished` does not match sees
      only the first StartedCount(runs) files. */
  lemma FilterTrace(tasks: seq<FileTask>, runs: seq<ProcessRun>, kind: Kind)
    requires |runs| == |tasks|
    requires kind != FinishedKind && kind != TerminalKind
    ensures Filter(TraceOf(tasks, runs), kind) == Flatten(Views(tasks, runs, StartedCount(runs), kind))
  {
    var k := FirstFailure(runs);
    if k == |runs| {
      var started := Started(tasks, runs, k);
      FilterConcat(started, [Finished], kind);
      FilterSingle(Finished, kind);
      AppendEmpty(Filter(started, kind));
    }
    FilterStarted(tasks, runs, StartedCount(runs), kind);
  }

  /** Every task carries the command line of the vector converter.py builds
      for its file, and its file's base name. */
  lemma TasksSpec(job: Job, k: nat)
    requires k < |job.inputFiles|
    ensures |Tasks(job)| == |job.inputFiles|
    ensures Tasks(job)[k].commandLine == JoinWords(FileCommand(job, k))
    ensures Tasks(job)[k].fileName == Basename(job.inputFiles[k])
  {
  }

  /** `file_progress(i, n)` is emitted for i = 1, 2, ... up to the last file
      started, in increasing order, and every emitted index lies in 1..n. */
  lemma TraceProgress(job: Job, runs: seq<ProcessRun>)
    requires |runs| == |job.inputFiles|
    ensures Filter(Trace(job, runs), ProgressKind) == Progresses(|job.inputFiles|, StartedCount(runs))
    ensures forall e :: e in Trace(job, runs) && e.FileProgress? ==> 1 <= e.index <= e.total == |job.inputFiles|
  {
    var tasks := Tasks(job);
    var t := Trace(job, runs);
    FilterTrace(tasks, runs, ProgressKind);
    StartedProgress(tasks, runs, StartedCount(runs));
    forall e | e in t && e.FileProgress?
      ensures 1 <= e.index <= e.total == |job.inputFiles|
    {
      var j :| 0 <= j < |t| && t[j] == e;
      FilterKeeps(t, ProgressKind, j);
    }
  }

  /** The files launched are the first ones up to the first failure, in order,
      each logged with its own command line: no file after a failing one is
      ever started. */
  lemma TraceCommands(job: Job, runs: seq<ProcessRun>)
    requires |runs| == |job.inputFiles|
    ensures var c := Filter(Trace(job, runs), CommandKind);
            && |c| == StartedCount(runs)
            && forall j :: 0 <= j < |c| ==> c[j] == CommandLogged(JoinWords(FileCommand(job, j)))
  {
    var tasks := Tasks(job);
    var s := StartedCount(runs);
    FilterTrace(tasks, runs, CommandKind);
    StartedCommands(tasks, runs, s);
    forall j | 0 <= j < s
      ensures tasks[j].commandLine == JoinWords(FileCommand(job, j))
    {
      TasksSpec(job, j);
    }
  }

  /** The output lines of file `i` are logged in order, exactly when file `i`
      is started; the text shown for each is its Message. */
  lemma TraceLines(job: Job, runs: seq<ProcessRun>, i: nat)
    requires |runs| == |job.inputFiles|
    ensures Filter(Trace(job, runs), LineKind(i))
         == if 1 <= i <= StartedCount(runs) then LineEvents(i, |job.inputFiles|, runs[i - 1].lines) else []
  {
    var tasks := Tasks(job);
    FilterTrace(tasks, runs, LineKind(i));
    StartedLines(tasks, runs, StartedCount(runs), i);
  }

  /** `finished` is emitted once exactly when every process exits with 0,
      and never otherwise. */
  lemma TraceFinished(tasks: seq<FileTask>, runs: seq<ProcessRun>)
    requires |runs| == |tasks|
    ensures Filter(TraceOf(tasks, runs), FinishedKind) == if AllSucceeded(runs) then [Finished] else []
  {
    var k := FirstFailure(runs);
    AllSucceededIff(runs);
    if k == |runs| {
      TraceFinishedAll(tasks, runs);
    } else {
      TraceFinishedNone(tasks, runs, k);
    }
  }

  lemma TraceFinishedNone(tasks: seq<FileTask>, runs: seq<ProcessRun>, k: nat)
    requires |runs| == |tasks| && k < |runs| && k == FirstFailure(runs)
    ensures Filter(TraceOf(tasks, runs), FinishedKind) == []
  {
    TraceOfFailed(tasks, runs, k);
    FilterStartedQuiet(tasks, runs, k + 1, FinishedKind);
  }

  lemma TraceFinishedAll(tasks: seq<FileTask>, runs: seq<ProcessRun>)
    requires |runs| == |tasks| && FirstFailure(runs) == |runs|
    ensures Filter(TraceOf(tasks, runs), FinishedKind) == [Finished]
  {
    TraceOfAll(tasks, runs);
    FilterThenFinished(Started(tasks, runs, |runs|));
    FilterStartedQuiet(tasks, runs, |runs|, FinishedKind);
  }

  /** When file `k` is the first that fails, the trace is the events of the
      files up to and including it. */
  lemma TraceOfFailed(tasks: seq<FileTask>, runs: seq<ProcessRun>, k: nat)
    requires |runs| == |tasks| && k < |runs| && k == FirstFailure(runs)
    ensures TraceOf(tasks, runs) == Started(tasks, runs, k + 1)
  {
  }

  /** When every file converts, the trace is all files' events and `finished`. */
  lemma TraceOfAll(tasks: seq<FileTask>, runs: seq<ProcessRun>)
    requires |runs| == |tasks| && FirstFailure(runs) == |runs|
    ensures TraceOf(tasks, runs) == Started(tasks, runs, |runs|) + [Finished]
  {
  }

  /** The filter for `finished` keeps a `finished` at the end. */
  lemma FilterThenFinished(events: seq<Event>)
    ensures Filter(events + [Finished], FinishedKind) == Filter(events, FinishedKind) + [Finished]
  {
    FilterConcat(events, [Finished], FinishedKind);
    FilterSingle(Finished, FinishedKind);
    assert Keep(Finished, FinishedKind) == [Finished];
  }

  /** No `error` is emitted when every process exits with 0; otherwise exactly
      one, for the first file that fails. */
  lemma TraceError(tasks: seq<FileTask>, runs: seq<ProcessRun>)
    requires |runs| == |tasks|
    ensures var k := FirstFailure(runs);
            Filter(TraceOf(tasks, runs), ErrorKind)
            == if AllSucceeded(runs) then [] else [Error(FailureOf(runs[k], tasks[k].fileName))]
  {
    AllSucceededIff(runs);
    if FirstFailure(runs) == |runs| {
      TraceErrorNone(tasks, runs);
    } else {
      TraceErrorAt(tasks, runs, FirstFailure(runs));
    }
  }

  lemma TraceErrorNone(tasks: seq<FileTask>, runs: seq<ProcessRun>)
    requires |runs| == |tasks| && FirstFailure(runs) == |runs|
    ensures Filter(TraceOf(tasks, runs), ErrorKind) == []
  {
    TraceOfAll(tasks, runs);
    FilterBeforeFinished(Started(tasks, runs, |runs|), ErrorKind);
    FilterStartedQuiet(tasks, runs, |runs|, ErrorKind);
  }

  /** A filter that does not keep `finished` ignores a `finished` at the end. */
  lemma FilterBeforeFinished(events: seq<Event>, kind: Kind)
    requires kind != FinishedKind && kind != TerminalKind
    ensures Filter(events + [Finished], kind) == Filter(events, kind)
  {
    FilterConcat(events, [Finished], kind);
    FilterSingle(Finished, kind);
    assert Keep(Finished, kind) == [];
    AppendEmpty(Filter(events, kind));
  }

  lemma TraceErrorAt(tasks: seq<FileTask>, runs: seq<ProcessRun>, k: nat)
    requires |runs| == |tasks| && k < |runs| && k == FirstFailure(runs)
    ensures Filter(TraceOf(tasks, runs), ErrorKind) == [Error(FailureOf(runs[k], tasks[k].fileName))]
  {
    var started := Started(tasks, runs, k);
    var file := FileEvents(tasks, runs, k);
    TraceFails(tasks, runs, k);
    FilterStartedQuiet(tasks, runs, k, ErrorKind);
    FilterConcat(started, file, ErrorKind);
    FilterFileOutcome(tasks, runs, k, ErrorKind);
    var outcome := Outcome(tasks, runs, k);
    assert outcome == [Error(FailureOf(runs[k], tasks[k].fileName))];
    AppendEmpty(outcome);
  }

  /** Every file converts exactly when no file is the first to fail. */
  lemma AllSucceededIff(runs: seq<ProcessRun>)
    ensures AllSucceeded(runs) <==> FirstFailure(runs) == |runs|
  {
  }

  /** `finished` is emitted once, and no `error`, exactly when every process
      exits with 0; otherwise one `error` for the first failing file and no
      `finished`. The error names the file's base name when its process exited
      non-zero, and carries the exception's text when one was raised. */
  lemma TraceOutcome(job: Job, runs: seq<ProcessRun>)
    requires |runs| == |job.inputFiles|
    ensures Filter(Trace(job, runs), FinishedKind) == if AllSucceeded(runs) then [Finished] else []
    ensures var k := FirstFailure(runs);
            Filter(Trace(job, runs), ErrorKind)
            == if AllSucceeded(runs) then [] else [Error(FailureOf(runs[k], Basename(job.inputFiles[k])))]
  {
    var tasks := Tasks(job);
    TraceFinished(tasks, runs);
    TraceError(tasks, runs);
    var k := FirstFailure(runs);
    if k < |runs| {
      TasksSpec(job, k);
    }
  }

  lemma FilterOpeningTerminal(tasks: seq<FileTask>, runs: seq<ProcessRun>, k: nat)
    requires |runs| == |tasks| && k < |runs|
    ensures Filter(Opening(tasks, runs, k), TerminalKind) == []
  {
    var progress := [FileProgress(k + 1, |tasks|)];
    var command := [CommandLogged(tasks[k].commandLine)];
    FilterConcat(progress + command, LineEvents(k + 1, |tasks|, runs[k].lines), TerminalKind);
    FilterConcat(progress, command, TerminalKind);
    FilterSingle(progress[0], TerminalKind);
    FilterSingle(command[0], TerminalKind);
    FilterLineEvents(k + 1, |tasks|, runs[k].lines, TerminalKind);
  }

  /** A sequence the filter for `kind` empties has no event of that kind. */
  lemma FilterEmpty(events: seq<Event>, kind: Kind)
    requires Filter(events, kind) == []
    ensures forall j :: 0 <= j < |events| ==> !Matches(kind, events[j])
  {
    forall j | 0 <= j < |events|
      ensures !Matches(kind, events[j])
    {
      if Matches(kind, events[j]) {
        FilterKeeps(events, kind, j);
      }
    }
  }

  /** Everything in a trace before its last event. */
  function Body(tasks: seq<FileTask>, runs: seq<ProcessRun>): seq<Event>
    requires |runs| == |tasks|
  {
    var k := FirstFailure(runs);
    if k == |runs| then Started(tasks, runs, k) else Started(tasks, runs, k) + Opening(tasks, runs, k)
  }

  /** The trace is its body followed by one last event: `finished` when every
      file converts, else the `error` of the first file that does not. */
  lemma TraceBody(tasks: seq<FileTask>, runs: seq<ProcessRun>)
    requires |runs| == |tasks|
    ensures var t := TraceOf(tasks, runs);
            var k := FirstFailure(runs);
            && |t| > 0 && t[..|t| - 1] == Body(tasks, runs)
            && t[|t| - 1] == if AllSucceeded(runs) then Finished else Error(FailureOf(runs[k], tasks[k].fileName))
  {
    var k := FirstFailure(runs);
    var t := TraceOf(tasks, runs);
    if k == |runs| {
      assert t == Body(tasks, runs) + [Finished];
    } else {
      TraceFails(tasks, runs, k);
      assert t == Body(tasks, runs) + Outcome(tasks, runs, k);
    }
  }

  lemma BodyQuiet(tasks: seq<FileTask>, runs: seq<ProcessRun>)
    requires |runs| == |tasks|
    ensures Filter(Body(tasks, runs), TerminalKind) == []
  {
    var k := FirstFailure(runs);
    FilterStartedQuiet(tasks, runs, k, TerminalKind);
    if k < |runs| {
      FilterConcat(Started(tasks, runs, k), Opening(tasks, runs, k), TerminalKind);
      FilterOpeningTerminal(tasks, runs, k);
    }
  }

  /** The trace ends with its only terminal event: nothing follows `finished`
      or `error`, and nothing before it is either. */
  lemma TraceTerminalLast(tasks: seq<FileTask>, runs: seq<ProcessRun>)
    requires |runs| == |tasks|
    ensures var t := TraceOf(tasks, runs);
            && |t| > 0 && IsTerminal(t[|t| - 1])
            && forall j :: 0 <= j < |t| - 1 ==> !IsTerminal(t[j])
  {
    var t := TraceOf(tasks, runs);
    var body := Body(tasks, runs);
    TraceBody(tasks, runs);
    BodyQuiet(tasks, runs);
    FilterEmpty(body, TerminalKind);
    forall j | 0 <= j < |t| - 1
      ensures !IsTerminal(t[j])
    {
      assert t[j] == body[j];
      assert !Matches(TerminalKind, body[j]);
    }
  }
}
