# mkv_converter — a verified model of the converter core

mkv_converter is a small desktop tool. The user picks MKV files and an
output folder. The tool then runs `ffmpeg` on each file in turn, producing
an MP4 with hardware H.264 video and AAC audio. While it runs, it shows
progress in a bar and a log.

This project models the sequential logic of `converter.py` in Dafny and
proves its properties:

- **Output path and command** (`paths.dfy`, `command.dfy`, `text.dfy`; `seqs.dfy` holds generic sequence facts):
  - the output path is derived with POSIX `basename`, `splitext` and `join`;
  - the 15-argument `ffmpeg` vector is built from the two bitrates;
  - the command line is logged as the vector joined by spaces;
  - Python's `str.strip` and `f"{n}"` are modelled exactly.
- **Batch runner** (`runner.dfy`): the `ConversionThread.run` loop.
  - Each launched process is given by the lines it prints and how it ends: an exit code, or a raised exception.
  - `Run` is a method with the source's loop and early return.
  - It is proved to emit exactly the trace `Trace(job, runs)`.
  - Lemmas about `Trace` state what the signals promise: progress numbering, the files started, the lines logged per file, and exactly one terminal `finished` or `error`.
- **The window** (`app.dfy`): the `ConverterApp` class.
  - **File list:** `input_files`, kept in step with the list widget's rows, with duplicate-free adding, removal by row, and clearing.
  - **Widget state:** the two spin boxes, the convert button, the progress bar (Qt's `QProgressBar` rules) and the log.
  - **Handlers:** the start guard and the four signal handlers.
  - **End to end:** `Convert` connects a click on the convert button, the thread's run and the delivery of its signals.

The `ffmpeg` vector is the one converter.py:32-42 builds: `-c:v h264_videotoolbox
-b:v <N>M -c:a aac -b:a <N>k -movflags +faststart`.

## Model

| member | source | states |
|---|---|---|
| Text.StripSpec | converter.py:52 | `line.strip()` is the line with all leading and trailing `isspace` characters removed: the result sits in the line between two all-space pieces and neither starts nor ends with white space |
| Text.Strip | converter.py:52 | `str.strip()` with no argument; its meaning is stated by StripSpec |
| Text.StripIdempotent | converter.py:52 | stripping an already stripped string removes nothing more |
| Text.StripUnchanged | converter.py:171-172 | a string that neither begins nor ends with white space is left as it is by `strip()` |
| Runner.ShownLine | converter.py:171-172 | `update_log` strips the message of an output line again: the message is shown unchanged when the line has text, and a blank line shows as the bare `[i/n]` counter, its trailing space removed |
| Text.Decimal | converter.py:37-39 | `f"{n}"` of a bitrate is a canonical decimal numeral: non-empty digits with no leading zero |
| Text.ParseDecimalOfDecimal | converter.py:37-39 | the rendered bitrate reads back as the same number |
| Text.DecimalOfParseDecimal | converter.py:37-39 | every canonical numeral is the rendering of the number it denotes, so rendering is a bijection onto canonical numerals |
| Text.JoinWords | converter.py:43 | `' '.join(cmd)`: the arguments with one space between neighbours; SplitJoinWords states its inverse |
| Text.SplitJoinWords | converter.py:43 | `' '.join` of words without spaces is undone by splitting at spaces |
| Paths.Basename | converter.py:29 | `os.path.basename`: the part of the path after its last `/`; stated by BasenameSpec |
| Paths.BasenameSpec | converter.py:29 | `os.path.basename` is a suffix of the path without `/`, preceded by a `/` unless it is the whole path |
| Paths.BasenameOfName | converter.py:29 | a name without `/` is its own base name |
| Paths.NameInFolder | converter.py:29 | the base name of `dir/name` is `name` when it has no `/` |
| Paths.SplitExt | converter.py:29 | `os.path.splitext` as `posixpath` computes it; stated by SplitExtSpec and SplitExtOfName |
| Paths.SplitExtSpec | converter.py:29 | `os.path.splitext` splits the path into root and extension that concatenate back to it; the extension is empty or one dot followed by no dot and no `/` |
| Paths.Join | converter.py:27-30 | two-argument `os.path.join`; stated by JoinSpec |
| Paths.JoinSpec | converter.py:27-30 | `os.path.join(dir, name)` is `name` when it is absolute, otherwise starts with `dir` and ends with `name`, with a `/` just before `name` when `dir` is non-empty; its length is exactly the two lengths, plus one for a `/` added only when `dir` is non-empty and does not already end in `/`, so nothing else lies between them |
| Paths.BasenameOfJoin | converter.py:27-30 | a name without `/` joined to a directory is the base name of the result |
| Paths.SplitExtOfName | converter.py:29 | a name `root + ext` whose `ext` is a single dotted extension and whose root is not all dots is split exactly there |
| Paths.Stem | converter.py:29 | `os.path.splitext(name)[0]`, the root part; a name without `/` has a stem without `/` (StemHasNoSlash) |
| Paths.OutputPath | converter.py:27-30 | the output path of an input file; stated by OutputPathSpec and OutputPathReplacesExtension |
| Paths.OutputPathSpec | converter.py:27-30 | the output file's base name is the input's stem plus ".mp4", and the output path starts with the output directory, followed by `/` before the name when the directory is non-empty; its length is the directory's plus the name's plus the one separator `join` adds, so the file sits directly in the output directory |
| Paths.OutputPathReplacesExtension | converter.py:27-30 | for an input named `root + ext`, the output path is the directory joined with `root + ".mp4"`: only the final extension is replaced |
| Paths.ReplacesLastExtensionOnly | converter.py:27-30 | "a.b.mkv" in any folder becomes "a.b.mp4" joined to the output directory |
| Paths.OutputNameSpec | converter.py:27-30 | the output file name is non-empty and contains no `/` |
| Paths.LeadingDotIsNotAnExtension | converter.py:29 | ".hidden" in any folder becomes ".hidden.mp4" joined to the output directory, because a leading dot does not start an extension |
| Paths.OutputPathsCanCollide | converter.py:27-30 | inputs with the same stem in different folders, or with different extensions, give the same output path |
| Command.FfmpegCommand | converter.py:32-42 | the vector has 15 arguments, "ffmpeg" first, the input path at index 3 and the output path last |
| Command.RateRoundTrip | converter.py:37-39 | a bitrate argument `N + unit` is a well-formed rate that reads back as N |
| Command.ParseFfmpegCommand | converter.py:32-42 | every vector the converter builds reads back as the invocation it was built from, so distinct invocations give distinct vectors |
| Command.FfmpegCommandOfParse | converter.py:32-42 | any vector that reads back is exactly the one built from what it reads back to |
| Command.SampleCommand | converter.py:32-42 | for "clip.mkv", "/out/clip.mp4", 8 and 192 the vector is exactly the 15 listed strings |
| Command.LoggedLineReadsBack | converter.py:43 | when neither path contains a space, the logged command line splits back into the vector and determines the invocation |
| Runner.FirstFailure | converter.py:53-56 | the position at which the loop stops: every earlier file's process exited with 0, and the one there did not |
| Runner.Succeeded | converter.py:54 | a file converts exactly when its process exits with return code 0; an exception is never a success |
| Runner.FailureOf | converter.py:54-59 | what the `error` signal carries: the file's base name for a non-zero exit (converter.py:55), the exception's text when one was raised (converter.py:59) |
| Runner.FileCommand | converter.py:27-42 | the `output_file` and `cmd` of one loop pass: the vector built from the input file, its output path and the job's bitrates |
| Runner.Message | converter.py:43 | the texts of the `progress` and `error` signals: `Запуск: ` and the command line, `[i/n] ` and the stripped line (converter.py:52), `Ошибка при конвертации файла ` and the base name (converter.py:55), or the exception's text (converter.py:59) |
| Runner.LineEvents | converter.py:51-52 | one progress event per output line: event j is line j of the file, labelled i of n |
| Runner.StartedStep | converter.py:25-56 | starting one more file appends that file's events to the trace so far |
| Runner.RunContinues | converter.py:25-56 | a file whose process exits with 0 extends the events of the files started so far by one file, and the loop goes on |
| Runner.RunStops | converter.py:54-56 | the first file whose process fails ends the trace with its own events |
| Runner.RunCompletes | converter.py:57 | after every file has converted, emitting `finished` completes the trace |
| Runner.Trace | converter.py:22-59 | the events a job's run emits; Run is proved to emit it, and the Trace lemmas below state its properties |
| Runner.TraceFails | converter.py:54-56 | when file `i` is the first that fails, the trace is the events of the files before it, then its own events ending in its error |
| Runner.TraceSucceeds | converter.py:57 | when every file converts, the trace is all files' events followed by `finished` |
| Runner.LogLines | converter.py:51-52 | the output loop appends one `[i/n] line` progress event per line, in order |
| Runner.ConvertFile | converter.py:26-56 | one loop pass emits `file_progress(i, n)`, the command line, the file's output lines, and an error if its process exits non-zero or raises; it tells the loop to stop exactly then |
| Runner.CheckExit | converter.py:53-56 | after the wait, a non-zero exit code emits the error naming the file's base name and stops the run, a raised exception emits its text and stops, and exit code 0 emits nothing and continues |
| Runner.Run | converter.py:22-59 | the runner emits exactly `Trace(job, runs)`: the files in order up to and including the first failure, then `finished` only when none failed |
| Runner.TraceProgress | converter.py:24-26 | `file_progress(i, n)` is emitted for i = 1, 2, … up to the number of files started, in order, and every emitted index satisfies 1 ≤ i ≤ n = number of files |
| Runner.TraceCommands | converter.py:43-56 | exactly the files up to the first failure are launched, in order, each with its own command line; no file after a failing one is started |
| Runner.TraceLines | converter.py:51-52 | the output lines of file `i` are logged in order, labelled `i` of `n`, exactly when file `i` is started |
| Runner.TraceFinished | converter.py:54-57 | `finished` is emitted once if every exit code is 0, and never otherwise |
| Runner.TraceError | converter.py:54-59 | no `error` is emitted when every file converts; otherwise exactly one, for the first file that fails: its base name on a non-zero exit, the exception text when one was raised |
| Runner.TraceOutcome | converter.py:54-59 | the same two facts for a whole job: one `finished` and no `error` if and only if all succeed; else no `finished` and one `error` for the first failing file, carrying its base name when its process exited non-zero and the exception's text when one was raised |
| Runner.TraceBody | converter.py:54-59 | the trace ends in `finished` when every file converts, else in the first failure's `error` |
| Runner.TraceTerminalLast | converter.py:54-59 | the terminal event is last and unique: nothing follows `finished` or `error`, and nothing before it is either |
| App.RemoveAt | converter.py:139-140 | removing row `i` keeps the rows before it and shifts the rows after it up by one, in order |
| App.AddUnique | converter.py:130-134 | the file list after adding a selection; stated by AddUniqueSpec, AddUniqueNoop and AddUniqueConcat |
| App.AddUniqueSpec | converter.py:130-134 | adding keeps the old list as a prefix, ends with exactly the old and the chosen paths, and never introduces a duplicate |
| App.AddUniqueNoop | converter.py:132 | re-adding paths already in the list is a no-op |
| App.AddUniqueIdempotent | converter.py:130-134 | adding the same selection twice is the same as adding it once |
| App.AddUniqueConcat | converter.py:130-134 | adding one selection and then another equals adding both in that order |
| App.RemoveAtSpec | converter.py:136-140 | removal keeps the list duplicate-free and drops exactly the removed path |
| App.RemoveAfterAdd | converter.py:130-140 | adding a new path appends it, and removing its row undoes the addition |
| App.Basenames | converter.py:134 | the rows of the file list widget, one base name per listed path; `Valid` ties them to the paths |
| App.BasenamesAppend | converter.py:133-134 | appending a path appends its base name to the rows |
| App.BasenamesRemoveAt | converter.py:139-140 | `takeItem(row)` and `pop(row)` keep the rows and the paths in step |
| App.Clamp | converter.py:92-101 | a spin box value lies within its range and is the requested value when that is in range |
| App.SetRange | converter.py:158 | `setRange(0, m)` sets the maximum to m (0 when m is negative); the same maximum as before changes nothing; a new maximum keeps the value when it stays in range and otherwise resets it to -1 |
| App.SetValue | converter.py:176 | `setValue(v)` takes a value within the range, or any value in busy mode, and otherwise changes nothing |
| App.ShowsValue | converter.py:174-176 | setting the range 0..total and then a value in it shows exactly that value of that total |
| App.React | converter.py:171-188 | each handler leaves the log as a prefix of the new log; only `finished` and `error` enable the button; `file_progress(i, n)` with 1 ≤ i ≤ n shows i of n |
| App.QuietKeepsButton | converter.py:171-176 | the progress and log handlers never touch the convert button |
| App.ReactAll | converter.py:165-188 | the window after handling the signals of a trace in order; stated by LogGrows, ButtonStaysDisabled and RunEndsScreen |
| App.LogGrows | converter.py:171-188 | the log only grows: earlier lines are never changed |
| App.ButtonStaysDisabled | converter.py:157-188 | once a run has started, the convert button stays disabled after every proper prefix of its trace |
| App.RunEndsScreen | converter.py:178-188 | after the whole trace of a run the button is enabled again, the bar is 100/100 if every file converted and 0/100 otherwise, and the last log line is the success text or "Ошибка: " followed by the error |
| App.FileNamesOfJob | converter.py:55 | the name used in a file's error message is the base name shown in the list |
| App.JobEndsScreen | converter.py:178-188 | the same for the trace of a job, the failed file named by the base name of its path |
| App.ConverterApp.constructor | converter.py:92-121 | the window opens with an empty list, bitrates 8 and 192, the button enabled, the bar reset and an empty log |
| App.ConverterApp.SetVideoBitrate | converter.py:92-94 | the video spin box holds the requested value bounded to 1..50 |
| App.ConverterApp.SetAudioBitrate | converter.py:99-101 | the audio spin box holds the requested value bounded to 64..320 |
| App.ConverterApp.AddFiles | converter.py:123-134 | the chosen paths not yet listed are appended in order, each with its base name as a new row; the list stays duplicate-free and in step with its rows |
| App.ConverterApp.RemoveSelectedFile | converter.py:136-140 | row ≥ 0 deletes exactly that index from both the rows and the paths; row -1 changes nothing |
| App.ConverterApp.ClearFiles | converter.py:142-144 | both the rows and the paths become empty |
| App.ConverterApp.StartConversion | converter.py:146-169 | with no files it only logs a request to add some, and with no folder it does nothing; in both cases it starts no conversion and leaves the button as it was. Otherwise it disables the button, makes the bar a busy indicator, and starts a job over the current list, the folder and the spin box values |
| App.ConverterApp.UpdateLog | converter.py:171-172 | a progress message is appended to the log stripped |
| App.ConverterApp.UpdateFileProgress | converter.py:174-176 | the bar shows `current` of `total` when 0 ≤ current ≤ total |
| App.ConverterApp.ConversionFinished | converter.py:178-182 | the bar becomes 100/100, the button enabled, and the success line is logged |
| App.ConverterApp.ConversionError | converter.py:184-188 | the bar becomes 0/100, the button enabled, and "Ошибка: " followed by the message is logged |
| App.ConverterApp.Deliver | converter.py:165-168 | each signal runs the handler it is connected to |
| App.ConverterApp.DeliverAll | converter.py:165-169 | a run's signals are handled one by one in the order emitted |
| App.ConverterApp.RunJob | converter.py:165-169 | the started thread emits exactly the runner's trace of the job, its signals are handled in order, and the window ends on the outcome: button enabled, bar 100/100 or 0/100, last log line the success text or the error |
| App.ConverterApp.Convert | converter.py:146-188 | a click that starts nothing leaves the window as it was, apart from the request for files logged when the list is empty. A click that starts a run records the job, and the window ends as the handlers make of the runner's trace from the screen the click left (button disabled, bar busy, log unchanged): the button re-enabled, the bar 100/100 exactly when every file converted (else 0/100), and the last log line naming the outcome |

## Left out

- Process launch and output streaming (`subprocess.Popen`, reading stdout, `wait`) are not modelled as I/O. Each launched process is a `ProcessRun`: the lines it prints, and either its exit code or the text of an exception.
  - How stdout is cut into lines is not modelled; the lines are given as they are.
  - An exception at any point of a file's handling is modelled as ending that file's process, after its lines have been logged.
- Threads and signal delivery (`QThread`, `pyqtSignal`, queued connections) are not modelled. The signals are an ordered trace of events, and `Convert` hands the whole trace to the handlers after the run. User actions interleaved with a running conversion are not modelled.
- The subclass's `finished` signal is assumed to be the one `conversion_finished` is connected to. The model does not capture QThread's own built-in `finished`, which shares its name.
- The thread shares the `input_files` list with the window rather than copying it. Together with the add and remove buttons staying enabled during a run, this means the files can change under a running conversion. The model runs over a snapshot (`Job`) instead.
- Each launched process is assumed to end, after printing finitely many lines. converter.py:51-53 waits with no timeout, so a process that never ends would leave the runner without `finished` or `error` and the convert button disabled for good. TraceTerminalLast, RunEndsScreen and Convert hold only for processes that end.
- Widget construction and layout, the window title, and `QApplication` start-up are not modelled. The file and folder dialogs are replaced by their results, which are parameters.
- App.ConverterApp.RemoveSelectedFile: takes the list widget's current row as a parameter and requires it to be -1 or an existing row, which is what `QListWidget.currentRow` returns.
- App.ConverterApp.StartConversion: does not require the convert button to be enabled. A disabled button cannot be clicked, which the model leaves to the caller.
- Qt's progress bar is modelled from Qt 6's `QProgressBar::setRange`, `setValue` and `reset`, with the minimum fixed at 0 as the program uses it. Qt's 32-bit `int` limits are not modelled, and neither are the spin boxes' limits beyond their ranges.
- Paths follow POSIX `posixpath` rules (`/` separator, leading dots are not an extension). Windows paths and drive letters are not modelled.
- build.py, the packaging script, is not part of this model.
