# Interactive code execution service — Dafny model

The service accepts a program (Python, C or C++) over HTTP, compiles it when
needed, launches it as a child process, and keeps an *execution session* for
it. Three worker threads serve each session:

- a stdout reader pushes `('output', line)` entries onto the session's output
  queue and raises the *waiting for input* flag when a line looks like a
  prompt;
- a stderr reader pushes `('error', line)` entries;
- an input feeder writes queued user input to the process's stdin.

Four request handlers work on the registry of live sessions:

- `execute_code` starts a program;
- `provide_input` sends a line and collects the response;
- `check_status` drains pending output;
- `terminate_session` stops a program.

A periodic sweep removes sessions whose process has exited.

The model is split into modules that follow that structure:

| module | file | models |
|---|---|---|
| `Text` | text.dfy | `rstrip`, `lower`, substring search, the prompt-keyword heuristic, `'\n'.join` |
| `Scratch` | scratch.dfy | scratch directories and files as a set of paths; `rmtree`/`unlink` |
| `CodeExecutor` | code_executor.dfy | the language table and the compile step with its fallback |
| `OutputQueue` | output_queue.dfy | the tagged output queue and how a drain splits it into two line lists |
| `Workers` | workers.dfy | what the reader threads push and what the input feeder writes |
| `Sessions` | sessions.dfy | the `ExecutionSession` record (a class whose fields the threads and handlers update), the readers' loop, the drains, the warm-up and the input exchange |
| `Engine` | engine.dfy | the session registry and the scratch filesystem (class `Server`), the four handlers, temp-file cleanup and the sweep |

Modelling choices:

- **Handlers are atomic.** Each handler runs as one step. What the threads and
  the process do while a handler sleeps or polls is an input of the handler:
  a `Window` value. It holds the lines the readers deliver (in the order the
  two threads interleave), whether the process has exited by the end of the
  wait, and how many queued entries the timed drain took before its deadline.
- **Time between requests is a step.** `Server.Elapse` lets a session's readers
  deliver lines and its process exit while no handler runs.
- **The process is a flag.** `process.poll() is not None` is the session field
  `exited`. The signals sent to the process are recorded in `signals`.
- **Tools are function parameters.** Compilers are a `toolchain` function from a
  command line to its outcome: an exit status with stderr, not found, or timed
  out. `Popen` is a `launcher` function that says whether the launch succeeded.
  `tempfile.mkdtemp()` and `uuid4()` supply values that the caller passes in:
  a fresh directory and an unused id.
- **The filesystem is a set of paths.** A path is its list of components.
  Removing a path removes it together with everything below it.

## Model

| member | source | states |
|---|---|---|
| Text.Rstrip | app.py:100 | the stripped line is a prefix of the line, is empty or ends in a non-whitespace character, and only whitespace was cut off |
| Text.Lower | app.py:102 | lower-casing keeps the length and maps each character by ASCII case folding |
| Text.ContainsIffOccurs | app.py:102 | `keyword in line` holds exactly when the keyword occurs at some index of the line |
| Text.PromptIgnoresTrailingSpace | app.py:403-406 | the handler tests the stripped stored line, the reader tested the raw line; both give the same prompt verdict |
| Text.LooksLikePromptIff | app.py:101-102 | a line looks like a prompt exactly when one of `input`, `enter`, `:`, `?` occurs somewhere in its lower-cased text |
| Text.PromptIgnoresCase | app.py:101-102 | the prompt verdict is the same for a line and its lower-cased form, so letter case never matters |
| Text.JoinLinesEnds | app.py:296-297 | `'\n'.join` of no lines is empty; otherwise the text starts with the first line and ends with the last |
| Text.SplitJoin | app.py:314-315 | a `'\n'.join` of lines that hold no newline splits back into exactly those lines; with `DeliveredLinesHaveNoNewline`, a response drained from freshly delivered `readline()` lines loses no line boundary |
| Scratch.Child | app.py:168 | `os.path.join(dir, name)` lies strictly below `dir` |
| Scratch.ReleaseSequential | app.py:80-90 | removing the listed paths one list after another is removing them all at once, and the order of removal does not change what remains |
| Scratch.ReleaseRestores | app.py:163-171 | removing the scratch paths of a fresh `mkdtemp` directory, the directory first, leaves the filesystem as it was before the request |
| CodeExecutor.FileExtension | app.py:41-47 | `.py`, `.c`, `.cpp` for the supported languages and `.txt` for anything else |
| CodeExecutor.ExecutableExtension | app.py:50-51 | the executable ends in `.exe` exactly on Windows and in `.out` exactly elsewhere |
| CodeExecutor.CompileCommand | app.py:54-65 | a command exactly for C and C++, of the form `[compiler, file, "-o", output]`, with gcc/clang for C and g++/clang++ for C++; the compiler is gcc or g++ exactly on Windows |
| CodeExecutor.FallbackCommand | app.py:190-195 | on Windows the retry after a missing compiler is the clang/clang++ command a POSIX host would have run first; elsewhere the retry repeats the first command |
| CodeExecutor.RunCommand | app.py:68-78 | `python file` for Python, the executable for C and C++, an empty command exactly for unsupported languages |
| CodeExecutor.Compile | app.py:183-216 | "compiler not found" exactly when both attempts are missing; success exactly on exit status 0 of the attempt used; a non-zero status is a compilation error carrying that stderr; on POSIX the retry repeats the same command, so a missing compiler there is final |
| OutputQueue.Texts | app.py:280-285 | a drain collects one line per entry carrying the tag |
| OutputQueue.MergeSplit | app.py:280-285 | the two line lists and the queue's tag sequence rebuild the drained queue: splitting loses nothing |
| OutputQueue.TextsAppend | app.py:376-385 | draining a prefix and then the rest yields the same lines, in order, as draining the whole queue |
| OutputQueue.SplitSizes | app.py:316 | the output and error lists together hold as many lines as entries were drained, so both are empty exactly when nothing was drained |
| Workers.ReadsAreArrivals | app.py:94-103 | without reader faults, what a reader's loop pushes is what `Delivered` gives for the non-empty lines it read, and it raises the waiting flag exactly when a prompt arrived among them |
| Workers.EndsInPromptArrived | app.py:402-406 | the handler's last-line check on freshly delivered output finds a prompt only if the stdout reader saw a prompt-like line too |
| Workers.DeliveredLinesHaveNoNewline | app.py:96-100 | stripping `readline()` lines, whose only newline is the last character, leaves the lines of a drain of those freshly delivered lines with no newline, so `SplitJoin` applies to such a drain |
| Workers.Delivered | app.py:99-100 | each arrival pushes exactly one entry, tagged by its stream, holding the stripped line, in arrival order |
| Workers.ReaderStopIsFirstEnd | app.py:95-98 | a reader consumes reads up to and including the first that ends it (end of file after exit, or an exception) and no further |
| Workers.ReaderPromptedIff | app.py:101-103 | a reader raises the waiting flag exactly when it is the stdout reader and some non-empty line it read looks like a prompt |
| Workers.StderrNeverPrompts | app.py:112-122 | the stderr reader never raises the waiting flag |
| Workers.WrittenEndsLines | app.py:137 | everything the feeder writes ends in a newline |
| Workers.InputWriter | app.py:129-145 | the feeder stops at the first stop signal, idle poll after exit, or failed write, and at no earlier event; it writes each value received while the process runs, followed by a newline |
| Sessions.ExecutionSession.constructor | app.py:27-37 | a new session is not exited, not waiting, not complete, with empty queues and empty final output |
| Sessions.ExecutionSession.Deliver | app.py:99-103 | one non-empty line is appended to the queue stripped and tagged; a prompt-like stdout line sets the waiting flag, and nothing else clears or sets it |
| Sessions.ExecutionSession.Absorb | app.py:99-103 | the queue grows by the delivered entries of all arrivals; the flag is set exactly if it was set or some stdout arrival looks like a prompt |
| Sessions.ExecutionSession.ReadLoop | app.py:94-105 | the reader loop consumes up to its stop point, appends what those reads push (fault messages included), and sets the flag exactly on a prompt-like stdout line |
| Sessions.ExecutionSession.OutputReader | app.py:92-110 | `output_reader` as that loop on stdout |
| Sessions.ExecutionSession.ErrorReader | app.py:112-127 | `error_reader` as that loop on stderr, leaving the waiting flag unchanged |
| Sessions.ExecutionSession.DrainUpTo | app.py:280-290 | the timed drain takes the first `k` entries into the two lists in queue order and leaves the rest queued |
| Sessions.ExecutionSession.DrainAll | app.py:429-437 | the full drain splits every queued entry into the two lists and empties the queue |
| Sessions.ExecutionSession.Finish | app.py:295-300 | a finished session is complete, stores the joined output and errors, and the feeder is sent the stop signal |
| Sessions.ExecutionSession.Await | app.py:273-290 | after a wait, the drained lines are those of the first `taken` entries of the old queue extended by what the readers delivered; the rest stays queued; the exit status is the window's; the flag is raised if a prompt arrived and is otherwise kept |
| Sessions.ExecutionSession.DrainRest | app.py:376-385 | draining the rest after a timed drain of a prefix gives the lines of the whole queue, in order, and empties it |
| Sessions.ExecutionSession.Reassess | app.py:402-406 | the handler sets the waiting flag exactly when the response's last output line looks like a prompt, whatever the readers set before |
| Sessions.ExecutionSession.Converse | app.py:349-406 | the input is queued for the feeder; after the wait, an exited process yields everything queued, otherwise the timed prefix, with the flag recomputed from the last output line only |
| Sessions.Spawn | app.py:238-290 | a fresh session for the launched process, with its warm-up output and the remaining queue |
| Engine.RequestedLanguage | app.py:158 | a request without a language asks for Python; otherwise each character of the name is lower-cased, so `PYTHON` and `Cpp` name supported languages |
| Engine.ProgramIsNotSource | app.py:168-177 | the executable's path differs from the source file's, whatever the language and host |
| Engine.Prepare | app.py:160-161 | a language is refused as unsupported exactly when it is not Python, C or C++; Python is always ready to run |
| Engine.PrepareOutcomes | app.py:163-226 | a ready plan owns at least the scratch directory and the code file, in that order, all under the directory, with a non-empty run command; a compilation error carries the stderr of a compiler run that exited non-zero |
| Engine.Server.constructor | app.py:22 | the registry starts empty |
| Engine.Server.CleanupTempFiles | app.py:80-90 | the disk after cleanup is the disk with each listed path and everything below it removed |
| Engine.Server.Discard | app.py:203-214 | a refused start leaves the disk as it was before the request |
| Engine.Server.Provision | app.py:163-171 | the preparation equals `Prepare`; a refusal leaves the disk unchanged; a ready plan adds exactly its scratch paths |
| Engine.Server.Build | app.py:174-218 | the compile step's outcome equals `Prepare`'s; a refused build (no compiler, compilation error) removes the scratch paths so the disk is as before the request; a built program's path is added to the disk |
| Engine.Server.Retire | app.py:340-341 | removing a session releases its scratch paths and drops it from the registry, and the registry invariant holds again |
| Engine.Server.Launch | app.py:229-317 | after a launch the session is registered; if the process already exited the response is completed and the registry and disk are as before the request, otherwise it is running with the warm-up output, the waiting flag `prompt arrived or nothing drained`, and the session filed under its new id with no signal sent and no final output stored |
| Engine.Server.Execute | app.py:152-324 | a refused preparation or a failed launch is an error that changes nothing; otherwise completed exactly when the process exited during the warm-up and running when it did not (never terminated), with the drained output joined by newlines; only a running response adds a session, with no signal sent, and scratch paths |
| Engine.SilentStart | app.py:310-317 | a launched Python program that prints nothing during the warm-up and keeps running is reported running under its new id, with empty output and `waiting_for_input` true |
| Engine.Server.Elapse | app.py:94-127 | between requests the readers append the delivered entries and may raise the waiting flag, and the process may exit; the input queue, the signals, the registry and the disk are untouched |
| Engine.Server.ProvideInput | app.py:326-416 | an unknown id is refused; an already exited process gives "Process has already terminated", releases the session without a stop signal, and removes it; otherwise the input is queued and the response is completed (all output, session removed) or running (timed prefix, prompt flag from the last line, the process still live and the stored output untouched); no signal is ever sent |
| Engine.Server.CheckStatus | app.py:418-464 | an unknown id is refused; otherwise all queued output is drained, no signal is sent and the stored output is untouched; an exited session is completed, its feeder stopped and the session removed, while a running one stays live and reports its stored flag |
| Engine.Server.TerminateSession | app.py:466-496 | an unknown id is refused; a live process gets SIGTERM, then a kill if it outlives the grace period, an exited one no signal; the feeder is stopped, the scratch paths released and the session removed |
| Engine.Server.CleanupOldSessions | app.py:499-513 | one sweep removes exactly the sessions whose process has exited, and the disk loses exactly the paths those sessions own |
| Engine.TerminateThenStatus | app.py:466-496 | after a termination, a status request for the same id is refused as an invalid session id |
| Engine.ExitThenSweep | app.py:499-513 | a process that exits between requests is removed by the next sweep, and a later status request is refused |
| Engine.ExitThenStatus | app.py:442-454 | a process that exits before the sweep is reported by the next status request as completed with everything queued, and its session is removed |
| Engine.ExitThenInput | app.py:338-346 | input for a process that exited meanwhile is answered "Process has already terminated", the queued output is dropped, and the session is removed |

## Left out

- HTTP itself: routing, JSON parsing, status codes (400, 500) and CORS. A handler returns a `Response` value instead.
- The text of a 500 error (`str(e)`): every exception a handler catches is the single failure `Internal`.
- Threads, sleeps and deadlines: what happens during a wait is the `Window` input. Concurrent interleavings inside a handler's own steps are not modelled, for example a reader pushing during `check_status`'s drain, or the sweep deleting a session while a handler uses it (which would raise `KeyError`).
- Sessions.Spawn: the model runs the warm-up before filing the session in the registry. `execute_code` files it first. No other step runs inside an atomic handler, so the final state is the same.
- Engine.Server.CleanupOldSessions: the sweep's endless loop and its 60-second sleep are left out. The method models one sweep.
- Workers.DeliveredLinesHaveNoNewline: the `readline()` shape of lines is not part of a `Window`, and the registry invariant does not keep queued entries newline-free. So the round trip of `SplitJoin` is proved for drains of fresh arrivals, not for every response of `provide_input` or `check_status`.
- Real processes and pipes: a reader's sequence of `readline()` results and the feeder's sequence of events are inputs.
- Workers.InputWriter: its events are not derived from the session's `inputQueue`. The `None` that finishing or terminating a session appends is the event that ends the feeder, but no lemma ties the two sequences together.
- Engine.Server.CleanupOldSessions: the sweep has no exception handler. A handler deleting from the registry while the sweep iterates or removes can raise `RuntimeError` or `KeyError`, and that ends the sweep thread for good. The model runs the sweep atomically, so it never fails.
- Reader faults inside a wait: a `Window` carries only lines, so a handler never sees the `'error'` entry a failing reader pushes. `ReadLoop` models those entries, and `ReadsAreArrivals` ties the fault-free reads to a window's arrivals.
- The exact exception messages of the reader faults: a fault pushes the fixed prefix plus a message passed in.
- Engine.Server.Execute: the program text (`code`) is not modelled. Only the existence of the code file is tracked. A failure to write that file, which the source raises outside the block that cleans up, is not modelled either.
- File versus directory: `os.path.isdir` only selects `rmtree` or `unlink`, and both remove a path with everything below it. Cleanup failures, which the source prints and ignores, are not modelled.
- Text.Lower: folds ASCII letters only. Python's `str.lower` also folds non-ASCII letters. `rstrip` is modelled on ASCII whitespace.
- Path separators appear only when a path is rendered into a command line.
- `print` diagnostics of the feeder and of cleanup are left out.
