/** The execution service: the registry of live sessions
    (`execution_sessions`), the scratch filesystem, the four request
    handlers and the periodic sweep. Each handler runs as one step; what the
    worker threads and the process do while a handler waits is given to it
    as a `Window`. */
module Engine {
  import opened Wrappers
  import opened Text
  import opened Scratch
  import opened CodeExecutor
  import opened OutputQueue
  import opened Workers
  import opened Sessions

  /** The `'error'` responses: unsupported language, missing compiler,
      compilation error (with the compiler's stderr as details), unknown
      session id, and an exception caught by a handler (HTTP 500). */
  datatype Failure =
    | UnsupportedLanguage
    | CompilerNotFound
    | CompilationError(details: string)
    | InvalidSessionId
    | Internal

  /** The JSON body a handler returns. */
  datatype Response =
    | Completed(output: string, error: string)
    | Running(sessionId: Option<string>, output: string, error: string, waitingForInput: bool)
    | Terminated
    | Rejected(failure: Failure)

  const AlreadyTerminated := "Process has already terminated"

  /** `data.get('language', 'python').lower()`: Python when the request names
      no language; otherwise the name with no upper-case letter left. */
  function RequestedLanguage(language: Option<string>): (lang: string)
    ensures language.None? ==> lang == "python"
    ensures language.Some? ==> |lang| == |language.value|
    ensures forall i | 0 <= i < |lang| :: !('A' <= lang[i] <= 'Z')
    ensures language.Some? ==> forall i | 0 <= i < |lang| :: lang[i] == LowerChar(language.value[i])
  {
    Lower(language.GetOr("python"))
  }

  function Separator(host: Host): char {
    if host == Windows then '\\' else '/'
  }

  function CodeFile(tempDir: Path, language: string): Path {
    Child(tempDir, "code" + FileExtension(language))
  }

  function ProgramFile(tempDir: Path, host: Host): Path {
    Child(tempDir, "program" + ExecutableExtension(host))
  }

  /** The executable never overwrites the source file: their names differ
      whatever the language and the host. */
  lemma ProgramIsNotSource(tempDir: Path, language: string, host: Host)
    ensures ProgramFile(tempDir, host) != CodeFile(tempDir, language)
  {
    var program, code := ProgramFile(tempDir, host).parts, CodeFile(tempDir, language).parts;
    assert program[|tempDir.parts|][0] == 'p' && code[|tempDir.parts|][0] == 'c';
  }

  /** What a start request has ready before the process is launched. */
  datatype Plan = Plan(tempFiles: seq<Path>, runCommand: seq<string>)
  datatype Preparation = Ready(plan: Plan) | Refused(failure: Failure)

  /** The steps of a start request before the launch: check the language,
      provision the scratch directory and source file, compile C and C++. */
  function Prepare(lang: string, host: Host, tempDir: Path,
                   toolchain: seq<string> -> ToolOutcome): (p: Preparation)
    ensures lang !in SupportedLanguages <==> p == Refused(UnsupportedLanguage)
    ensures lang == "python" ==> p.Ready?
  {
    var codeFile := CodeFile(tempDir, lang);
    var program := ProgramFile(tempDir, host);
    var sep := Separator(host);
    var run := RunCommand(Render(codeFile, sep), lang, Render(program, sep));
    if lang !in SupportedLanguages then Refused(UnsupportedLanguage)
    else if lang !in CompiledLanguages then Ready(Plan([tempDir, codeFile], run))
    else
      match Compile(host, Render(codeFile, sep), lang, Render(program, sep), toolchain)
      case Built => Ready(Plan([tempDir, codeFile, program], run))
      case NoCompiler => Refused(CompilerNotFound)
      case Failed(stderr) => Refused(CompilationError(stderr))
      case CompileTimedOut => Refused(Internal)
  }

  /** The cases of `Prepare` for a supported language, one per outcome of
      the compile step. */
  lemma PrepareCases(lang: string, host: Host, tempDir: Path,
                     toolchain: seq<string> -> ToolOutcome, compiled: CompileResult)
    requires lang in SupportedLanguages
    requires lang in CompiledLanguages ==>
               compiled == Compile(host, Render(CodeFile(tempDir, lang), Separator(host)), lang,
                                   Render(ProgramFile(tempDir, host), Separator(host)), toolchain)
    ensures var codeFile := CodeFile(tempDir, lang);
            var program := ProgramFile(tempDir, host);
            var run := RunCommand(Render(codeFile, Separator(host)), lang, Render(program, Separator(host)));
            var p := Prepare(lang, host, tempDir, toolchain);
            && (lang !in CompiledLanguages ==> p == Ready(Plan([tempDir, codeFile], run)))
            && (lang in CompiledLanguages && compiled == Built ==> p == Ready(Plan([tempDir, codeFile, program], run)))
            && (lang in CompiledLanguages && compiled == NoCompiler ==> p == Refused(CompilerNotFound))
            && (lang in CompiledLanguages && compiled.Failed? ==> p == Refused(CompilationError(compiled.stderr)))
            && (lang in CompiledLanguages && compiled == CompileTimedOut ==> p == Refused(Internal))
  {
  }

  /** What a start request can end in before the launch: a plan whose
      scratch paths start with the scratch directory and stay inside it, with
      a command to run; or a compilation error reported with the stderr of a
      compiler run that failed. */
  lemma PrepareOutcomes(lang: string, host: Host, tempDir: Path,
                        toolchain: seq<string> -> ToolOutcome)
    ensures var p := Prepare(lang, host, tempDir, toolchain);
            p.Ready? ==> var files := p.plan.tempFiles;
              && 2 <= |files| && files[0] == tempDir && files[1] == CodeFile(tempDir, lang)
              && (forall i | 0 <= i < |files| :: Within(tempDir, files[i]))
              && p.plan.runCommand != []
    ensures var p := Prepare(lang, host, tempDir, toolchain);
            p.Refused? && p.failure.CompilationError? ==>
              exists cmd :: toolchain(cmd).Ran? && toolchain(cmd).returnCode != 0 &&
                            toolchain(cmd).stderr == p.failure.details
  {
    if lang in SupportedLanguages {
      var sep := Separator(host);
      var codeFile := CodeFile(tempDir, lang);
      var program := ProgramFile(tempDir, host);
      if lang in CompiledLanguages {
        var compiled := Compile(host, Render(codeFile, sep), lang, Render(program, sep), toolchain);
        PrepareCases(lang, host, tempDir, toolchain, compiled);
        if compiled.Failed? {
          var first := CompileCommand(host, Render(codeFile, sep), lang, Render(program, sep)).value;
          var second := FallbackCommand(host, Render(codeFile, sep), lang, Render(program, sep), first);
          var used := if toolchain(first).NotFound? then second else first;
          assert toolchain(used).Ran? && toolchain(used).returnCode != 0;
        }
        var three := [tempDir, codeFile, program];
        assert forall i | 0 <= i < 3 :: Within(tempDir, three[i]);
      } else {
        PrepareCases(lang, host, tempDir, toolchain, Built);
      }
      var two := [tempDir, codeFile];
      assert forall i | 0 <= i < 2 :: Within(tempDir, two[i]);
    }
  }

  function PathSet(paths: seq<Path>): set<Path> {
    set i | 0 <= i < |paths| :: paths[i]
  }

  /** The scratch paths of a start request as a set. */
  lemma PathSetOfPlan(dir: Path, code: Path, program: Path)
    ensures PathSet([dir, code]) == {dir, code}
    ensures PathSet([dir, code, program]) == {dir, code, program}
  {
    var two, three := [dir, code], [dir, code, program];
    assert two[0] == dir && two[1] == code;
    assert three[0] == dir && three[1] == code && three[2] == program;
  }

  /** Registering an id and deleting it again leaves the registry as it was. */
  lemma RegisterThenDelete(m: map<string, ExecutionSession>, id: string, s: ExecutionSession)
    requires id !in m
    ensures m[id := s] - {id} == m
  {
  }

  class Server {
    /** `execution_sessions` */
    var sessions: map<string, ExecutionSession>
    /** The scratch paths that exist on disk. */
    var disk: set<Path>

    /** Each live session is filed under its own id and not yet complete. */
    ghost predicate Valid()
      reads this, sessions.Values
    {
      forall id | id in sessions :: sessions[id].sessionId == id && !sessions[id].isComplete
    }

    /** `Valid` for every session but the one filed under `id`. */
    ghost predicate ValidExcept(id: string)
      reads this, sessions.Values
    {
      forall other | other in sessions && other != id ::
        sessions[other].sessionId == other && !sessions[other].isComplete
    }

    constructor (disk: set<Path>)
      ensures Valid() && sessions == map[] && this.disk == disk
    {
      sessions := map[];
      this.disk := disk;
    }

    /** The session a handler on `id` may change. */
    function At(id: string): set<ExecutionSession>
      reads this
    {
      if id in sessions then {sessions[id]} else {}
    }

    /** The ids of the sessions whose process has exited. */
    ghost function Exited(): set<string>
      reads this, sessions.Values
    {
      set id | id in sessions && sessions[id].exited
    }

    /** `cleanup_temp_files`: remove each path with everything below it. */
    method CleanupTempFiles(tempFiles: seq<Path>)
      modifies this`disk
      ensures disk == Release(old(disk), tempFiles)
    {
      for i := 0 to |tempFiles|
        invariant disk == Release(old(disk), tempFiles[..i])
      {
        forall p | p in old(disk)
          ensures WithinAny(tempFiles[..i + 1], p) == (WithinAny(tempFiles[..i], p) || Within(tempFiles[i], p))
        {
          assert tempFiles[..i + 1][i] == tempFiles[i];
          assert forall j | 0 <= j < i :: tempFiles[..i + 1][j] == tempFiles[..i][j];
        }
        disk := set p | p in disk && !Within(tempFiles[i], p);
      }
      assert tempFiles[..|tempFiles|] == tempFiles;
    }

    /** The end of every finished session: `cleanup_temp_files` on its
        scratch paths, then `del execution_sessions[id]`. */
    method Retire(id: string)
      requires id in sessions && ValidExcept(id)
      modifies this`sessions, this`disk
      ensures sessions == old(sessions) - {id}
      ensures disk == Release(old(disk), old(sessions[id].tempFiles))
      ensures Valid()
    {
      CleanupTempFiles(sessions[id].tempFiles);
      sessions := sessions - {id};
    }

    /** The cleanup after a start request that does not leave a running
        session: everything made under the fresh scratch directory goes, and
        the disk is as it was before the request. */
    method Discard(ghost before: set<Path>, tempDir: Path, tempFiles: seq<Path>)
      requires FreshDir(before, tempDir)
      requires |tempFiles| > 0 && tempFiles[0] == tempDir
      requires forall i | 0 <= i < |tempFiles| :: Within(tempDir, tempFiles[i])
      requires disk == before + PathSet(tempFiles)
      modifies this`disk
      ensures disk == before
    {
      ReleaseRestores(before, tempDir, PathSet(tempFiles), tempFiles);
      CleanupTempFiles(tempFiles);
    }

    /** The provisioning part of `execute_code`: make the scratch directory
        and write the source file, then build C and C++. */
    method Provision(lang: string, host: Host, tempDir: Path,
                     toolchain: seq<string> -> ToolOutcome) returns (p: Preparation)
      requires lang in SupportedLanguages
      requires FreshDir(disk, tempDir)
      modifies this`disk
      ensures p == Prepare(lang, host, tempDir, toolchain)
      ensures p.Refused? ==> disk == old(disk)
      ensures p.Ready? ==> disk == old(disk) + PathSet(p.plan.tempFiles)
    {
      var codeFile := CodeFile(tempDir, lang);
      disk := disk + {tempDir};
      disk := disk + {codeFile};
      if lang in CompiledLanguages {
        p := Build(old(disk), lang, host, tempDir, toolchain);
      } else {
        var sep := Separator(host);
        var runCommand := RunCommand(Render(codeFile, sep), lang, Render(ProgramFile(tempDir, host), sep));
        PrepareCases(lang, host, tempDir, toolchain, Built);
        PathSetOfPlan(tempDir, codeFile, codeFile);
        p := Ready(Plan([tempDir, codeFile], runCommand));
      }
    }

    /** The compile step of `execute_code`: on success the executable joins
        the scratch paths; on a missing compiler, a compilation error or a
        timeout the scratch paths are removed again. */
    method Build(ghost before: set<Path>, lang: string, host: Host, tempDir: Path,
                 toolchain: seq<string> -> ToolOutcome) returns (p: Preparation)
      requires lang in CompiledLanguages
      requires FreshDir(before, tempDir)
      requires disk == before + {tempDir, CodeFile(tempDir, lang)}
      modifies this`disk
      ensures p == Prepare(lang, host, tempDir, toolchain)
      ensures p.Refused? ==> disk == before
      ensures p.Ready? ==> disk == before + PathSet(p.plan.tempFiles)
    {
      var sep := Separator(host);
      var codeFile := CodeFile(tempDir, lang);
      var program := ProgramFile(tempDir, host);
      var compiled := Compile(host, Render(codeFile, sep), lang, Render(program, sep), toolchain);
      PrepareCases(lang, host, tempDir, toolchain, compiled);
      PathSetOfPlan(tempDir, codeFile, program);
      if compiled != Built {
        Discard(before, tempDir, [tempDir, codeFile]);
        if compiled == NoCompiler {
          return Refused(CompilerNotFound);
        } else if compiled.Failed? {
          return Refused(CompilationError(compiled.stderr));
        } else {
          return Refused(Internal);
        }
      }
      disk := disk + {program};
      var runCommand := RunCommand(Render(codeFile, sep), lang, Render(program, sep));
      p := Ready(Plan([tempDir, codeFile, program], runCommand));
    }

    /** The part of `execute_code` after a successful launch: register the
        session, let its first output arrive, then finish it if the process
        is already gone. */
    method Launch(newId: string, ghost before: set<Path>, tempDir: Path, tempFiles: seq<Path>,
                  w: Window) returns (r: Response)
      requires Valid()
      requires newId !in sessions
      requires FreshDir(before, tempDir)
      requires |tempFiles| > 0 && tempFiles[0] == tempDir
      requires forall i | 0 <= i < |tempFiles| :: Within(tempDir, tempFiles[i])
      requires disk == before + PathSet(tempFiles)
      requires Fits(w, 0)
      modifies this
      ensures Valid()
      ensures r.Completed? || r.Running?
      ensures r.Completed? <==> w.exits
      ensures r.Completed? ==> sessions == old(sessions) && disk == before
      ensures var q := Delivered(w.arrivals)[..w.taken];
              r.output == JoinLines(Outputs(q)) && r.error == JoinLines(Errors(q))
      ensures r.Running? ==>
                && r.sessionId == Some(newId)
                && r.waitingForInput == (PromptArrived(w.arrivals) || w.taken == 0)
                && newId in sessions && fresh(sessions[newId])
                && sessions == old(sessions)[newId := sessions[newId]]
                && disk == old(disk)
                && var s := sessions[newId];
                   && s.tempFiles == tempFiles
                   && !s.exited && s.inputQueue == [] && s.signals == []
                   && s.finalOutput == "" && s.errorOutput == ""
                   && s.outputQueue == Delivered(w.arrivals)[w.taken..]
                   && s.isWaitingForInput == PromptArrived(w.arrivals)
    {
      var session, initialOutput, initialErrors := Spawn(newId, tempFiles, w);
      sessions := sessions[newId := session];
      if session.exited {
        session.Finish(initialOutput, initialErrors);
        Discard(before, tempDir, tempFiles);
        RegisterThenDelete(old(sessions), newId, session);
        sessions := sessions - {newId};
        forall id | id in sessions
          ensures sessions[id].sessionId == id && !sessions[id].isComplete
        {
          assert sessions[id] == old(sessions[id]) && sessions[id] != session;
        }
        return Completed(session.finalOutput, session.errorOutput);
      }
      forall id | id in sessions
        ensures sessions[id].sessionId == id && !sessions[id].isComplete
      {
        if id != newId {
          assert sessions[id] == old(sessions[id]) && sessions[id] != session;
        }
      }
      SplitSizes(Delivered(w.arrivals)[..w.taken]);
      r := Running(Some(newId), JoinLines(initialOutput), JoinLines(initialErrors),
                   session.isWaitingForInput || (initialOutput == [] && initialErrors == []));
    }

    /** `execute_code`: check the language, provision, launch, collect the
        warm-up output, then either finish the session or leave it
        registered and running. */
    method Execute(language: Option<string>, host: Host, tempDir: Path,
                   toolchain: seq<string> -> ToolOutcome, launcher: seq<string> -> bool,
                   newId: string, w: Window) returns (r: Response)
      requires Valid()
      requires newId !in sessions
      requires FreshDir(disk, tempDir)
      requires Fits(w, 0)
      modifies this
      ensures Valid()
      ensures var p := Prepare(RequestedLanguage(language), host, tempDir, toolchain);
              && (p.Refused? ==> r == Rejected(p.failure))
              && (p.Ready? && !launcher(p.plan.runCommand) ==> r == Rejected(Internal))
              && (!r.Rejected? <==> p.Ready? && launcher(p.plan.runCommand))
      ensures !r.Running? ==> sessions == old(sessions) && disk == old(disk)
      ensures !r.Terminated?
      ensures r.Completed? <==> !r.Rejected? && w.exits
      ensures r.Completed? || r.Running? ==>
                var q := Delivered(w.arrivals)[..w.taken];
                r.output == JoinLines(Outputs(q)) && r.error == JoinLines(Errors(q))
      ensures r.Running? ==>
                && r.sessionId == Some(newId)
                && r.waitingForInput == (PromptArrived(w.arrivals) || w.taken == 0)
                && newId in sessions && fresh(sessions[newId])
                && sessions == old(sessions)[newId := sessions[newId]]
                && var s := sessions[newId];
                   && s.tempFiles == Prepare(RequestedLanguage(language), host, tempDir, toolchain).plan.tempFiles
                   && disk == old(disk) + PathSet(s.tempFiles)
                   && !s.exited && s.inputQueue == [] && s.signals == []
                   && s.finalOutput == "" && s.errorOutput == ""
                   && s.outputQueue == Delivered(w.arrivals)[w.taken..]
                   && s.isWaitingForInput == PromptArrived(w.arrivals)
    {
      var lang := RequestedLanguage(language);
      if lang !in SupportedLanguages {
        return Rejected(UnsupportedLanguage);
      }
      var p := Provision(lang, host, tempDir, toolchain);
      PrepareOutcomes(lang, host, tempDir, toolchain);
      if p.Refused? {
        return Rejected(p.failure);
      }
      var tempFiles := p.plan.tempFiles;
      if !launcher(p.plan.runCommand) {
        Discard(old(disk), tempDir, tempFiles);
        return Rejected(Internal);
      }
      r := Launch(newId, old(disk), tempDir, tempFiles, w);
    }

    /** Time passing between two requests: the readers of session `id`
        deliver `arrivals`, and its process may exit meanwhile. No handler
        runs; the registry and the disk stay as they are. */
    method Elapse(id: string, arrivals: seq<Arrival>, exits: bool)
      requires Valid()
      requires NonEmptyLines(arrivals)
      modifies At(id)
      ensures Valid()
      ensures id in sessions ==>
                var s := sessions[id];
                && s.outputQueue == old(s.outputQueue) + Delivered(arrivals)
                && s.isWaitingForInput == (old(s.isWaitingForInput) || PromptArrived(arrivals))
                && s.exited == (old(s.exited) || exits)
                && s.inputQueue == old(s.inputQueue) && s.signals == old(s.signals)
    {
      if id in sessions {
        var session := sessions[id];
        session.Absorb(arrivals);
        if exits {
          session.exited := true;
        }
      }
    }

    /** `provide_input`: queue a line for the process, then report what it
        printed in response, finishing the session if it has exited. */
    method ProvideInput(id: string, input: string, w: Window) returns (r: Response)
      requires Valid()
      requires id in sessions ==> Fits(w, |sessions[id].outputQueue|)
      modifies this, At(id)
      ensures Valid()
      ensures id !in old(sessions) ==>
                r == Rejected(InvalidSessionId) && sessions == old(sessions) && disk == old(disk)
      ensures id in old(sessions) && old(sessions[id].exited) ==>
                var s := old(sessions[id]);
                && r == Completed("", AlreadyTerminated)
                && sessions == old(sessions) - {id}
                && disk == Release(old(disk), s.tempFiles)
                && s.inputQueue == old(s.inputQueue) && s.signals == old(s.signals)
      ensures id in old(sessions) && !old(sessions[id].exited) ==>
                var s := old(sessions[id]);
                var q := old(s.outputQueue) + Delivered(w.arrivals);
                && s.signals == old(s.signals)
                && if w.exits then
                  && r == Completed(JoinLines(Outputs(q)), JoinLines(Errors(q)))
                  && s.outputQueue == [] && s.isComplete
                  && s.inputQueue == old(s.inputQueue) + [Some(input), None]
                  && sessions == old(sessions) - {id}
                  && disk == Release(old(disk), s.tempFiles)
                else
                  var outs := Outputs(q[..w.taken]);
                  && r == Running(None, JoinLines(outs), JoinLines(Errors(q[..w.taken])), s.isWaitingForInput)
                  && s.isWaitingForInput == EndsInPrompt(outs)
                  && s.outputQueue == q[w.taken..]
                  && s.inputQueue == old(s.inputQueue) + [Some(input)]
                  && !s.exited && !s.isComplete
                  && s.finalOutput == old(s.finalOutput) && s.errorOutput == old(s.errorOutput)
                  && sessions == old(sessions) && disk == old(disk)
    {
      if id !in sessions {
        return Rejected(InvalidSessionId);
      }
      var session := sessions[id];
      if session.exited {
        Retire(id);
        return Completed("", AlreadyTerminated);
      }
      var outputLines, errorLines := session.Converse(input, w);
      if session.exited {
        session.Finish(outputLines, errorLines);
        Retire(id);
        return Completed(session.finalOutput, session.errorOutput);
      }
      r := Running(None, JoinLines(outputLines), JoinLines(errorLines), session.isWaitingForInput);
    }

    /** `check_status`: drain everything queued; finish the session if its
        process has exited, otherwise report the stored waiting flag. */
    method CheckStatus(id: string) returns (r: Response)
      requires Valid()
      modifies this, At(id)
      ensures Valid()
      ensures id !in old(sessions) ==>
                r == Rejected(InvalidSessionId) && sessions == old(sessions) && disk == old(disk)
      ensures id in old(sessions) ==>
                var s := old(sessions[id]);
                var q := old(s.outputQueue);
                && s.outputQueue == [] && s.signals == old(s.signals)
                && s.finalOutput == old(s.finalOutput) && s.errorOutput == old(s.errorOutput)
                && if old(s.exited) then
                     && r == Completed(JoinLines(Outputs(q)), JoinLines(Errors(q)))
                     && s.isComplete && s.inputQueue == old(s.inputQueue) + [None]
                     && sessions == old(sessions) - {id}
                     && disk == Release(old(disk), s.tempFiles)
                   else
                     && r == Running(None, JoinLines(Outputs(q)), JoinLines(Errors(q)), old(s.isWaitingForInput))
                     && s.isWaitingForInput == old(s.isWaitingForInput)
                     && s.inputQueue == old(s.inputQueue)
                     && !s.exited && !s.isComplete
                     && sessions == old(sessions) && disk == old(disk)
    {
      if id !in sessions {
        return Rejected(InvalidSessionId);
      }
      var session := sessions[id];
      var outputLines, errorLines := session.DrainAll();
      if session.exited {
        session.isComplete := true;
        session.inputQueue := session.inputQueue + [None];
        Retire(id);
        return Completed(JoinLines(outputLines), JoinLines(errorLines));
      }
      r := Running(None, JoinLines(outputLines), JoinLines(errorLines), session.isWaitingForInput);
    }

    /** `terminate_session`: stop a live process (SIGTERM, then a kill when it
        outlives the 2 s grace period) and finish the session. */
    method TerminateSession(id: string, stopsWithinGrace: bool) returns (r: Response)
      requires Valid()
      modifies this, At(id)
      ensures Valid()
      ensures id !in old(sessions) ==>
                r == Rejected(InvalidSessionId) && sessions == old(sessions) && disk == old(disk)
      ensures id in old(sessions) ==>
                var s := old(sessions[id]);
                && r == Terminated
                && sessions == old(sessions) - {id}
                && disk == Release(old(disk), s.tempFiles)
                && s.exited && s.inputQueue == old(s.inputQueue) + [None]
                && s.signals == old(s.signals) +
                     (if old(s.exited) then [] else if stopsWithinGrace then [Term] else [Term, Kill])
    {
      if id !in sessions {
        return Rejected(InvalidSessionId);
      }
      var session := sessions[id];
      if !session.exited {
        session.signals := session.signals + [Term];
        if !stopsWithinGrace {
          session.signals := session.signals + [Kill];
        }
        session.exited := true;
      }
      session.inputQueue := session.inputQueue + [None];
      Retire(id);
      r := Terminated;
    }

    /** One sweep of `cleanup_old_sessions`: collect the sessions whose
        process has exited, then release their scratch paths and drop them. */
    method CleanupOldSessions()
      requires Valid()
      modifies this
      ensures Valid()
      ensures sessions == old(sessions) - old(Exited())
      ensures disk == set p | p in old(disk) && !Owned(old(sessions), old(Exited()), p)
    {
      ghost var exited := Exited();
      var sessionsToRemove: set<string> := {};
      var unvisited := sessions.Keys;
      while unvisited != {}
        invariant unvisited <= sessions.Keys
        invariant sessionsToRemove == set id | id in sessions && id !in unvisited && sessions[id].exited
        decreases unvisited
      {
        var id :| id in unvisited;
        if sessions[id].exited {
          sessionsToRemove := sessionsToRemove + {id};
        }
        unvisited := unvisited - {id};
      }
      assert sessionsToRemove == exited;
      ghost var before := sessions;
      ghost var disk0 := disk;
      while sessionsToRemove != {}
        invariant sessionsToRemove <= exited
        invariant sessions == before - (exited - sessionsToRemove)
        invariant disk == set p | p in disk0 && !Owned(before, exited - sessionsToRemove, p)
        decreases sessionsToRemove
      {
        var id :| id in sessionsToRemove;
        var session := sessions[id];
        CleanupTempFiles(session.tempFiles);
        sessions := sessions - {id};
        sessionsToRemove := sessionsToRemove - {id};
      }
    }
  }

  /** Some session among `ids` owns a scratch path at or above `p`. */
  predicate Owned(m: map<string, ExecutionSession>, ids: set<string>, p: Path) {
    exists id | id in ids && id in m :: WithinAny(m[id].tempFiles, p)
  }

  /** Once a session is terminated its id is unknown: a status request for
      it is refused, whatever state the process was in. */
  method TerminateThenStatus(server: Server, id: string, stopsWithinGrace: bool)
    returns (first: Response, second: Response)
    requires server.Valid()
    modifies server, server.At(id)
    ensures server.Valid()
    ensures first == (if id in old(server.sessions) then Terminated else Rejected(InvalidSessionId))
    ensures second == Rejected(InvalidSessionId)
  {
    first := server.TerminateSession(id, stopsWithinGrace);
    second := server.CheckStatus(id);
  }

  /** A process that exits between two requests is removed by the next
      sweep, together with its scratch paths; a status request after the
      sweep is refused. */
  method ExitThenSweep(server: Server, id: string, arrivals: seq<Arrival>) returns (status: Response)
    requires server.Valid() && id in server.sessions && NonEmptyLines(arrivals)
    modifies server, server.At(id)
    ensures server.Valid()
    ensures server.sessions == old(server.sessions) - {id} - old(server.Exited())
    ensures status == Rejected(InvalidSessionId)
  {
    server.Elapse(id, arrivals, true);
    server.CleanupOldSessions();
    status := server.CheckStatus(id);
  }

  /** When the process exits before the sweep, the next status request
      reports everything still queued as the completed output and removes
      the session. */
  method ExitThenStatus(server: Server, id: string, arrivals: seq<Arrival>) returns (status: Response)
    requires server.Valid() && id in server.sessions && NonEmptyLines(arrivals)
    modifies server, server.At(id)
    ensures server.Valid()
    ensures server.sessions == old(server.sessions) - {id}
    ensures var q := old(server.sessions[id].outputQueue) + Delivered(arrivals);
            status == Completed(JoinLines(Outputs(q)), JoinLines(Errors(q)))
  {
    server.Elapse(id, arrivals, true);
    status := server.CheckStatus(id);
  }

  /** When the process exits before the next input, that input is refused
      with "Process has already terminated" and the output still queued is
      dropped, not reported. */
  method ExitThenInput(server: Server, id: string, arrivals: seq<Arrival>, input: string, w: Window)
    returns (reply: Response)
    requires server.Valid() && id in server.sessions && NonEmptyLines(arrivals)
    requires Fits(w, |server.sessions[id].outputQueue| + |arrivals|)
    modifies server, server.At(id)
    ensures server.Valid()
    ensures server.sessions == old(server.sessions) - {id}
    ensures reply == Completed("", AlreadyTerminated)
  {
    server.Elapse(id, arrivals, true);
    reply := server.ProvideInput(id, input, w);
  }

  /** A Python program that prints nothing during the warm-up and keeps
      running is reported running, under its new id, and waiting for input. */
  method SilentStart(server: Server, host: Host, tempDir: Path, toolchain: seq<string> -> ToolOutcome,
                     launcher: seq<string> -> bool, newId: string) returns (r: Response)
    requires server.Valid() && newId !in server.sessions && FreshDir(server.disk, tempDir)
    requires forall cmd :: launcher(cmd)
    modifies server
    ensures server.Valid()
    ensures r.Running? && r.sessionId == Some(newId) && r.waitingForInput
    ensures newId in server.sessions && r.output == "" && r.error == ""
  {
    r := server.Execute(None, host, tempDir, toolchain, launcher, newId, Window([], false, 0));
  }
}
