/** The static language table (`CodeExecutor`) and the compile step that
    precedes launching a C or C++ program. */
module CodeExecutor {
  import opened Wrappers

  /** The host platform the service runs on (`platform.system()`). */
  datatype Host = Windows | Posix

  const SupportedLanguages: seq<string> := ["python", "c", "cpp"]
  const CompiledLanguages: seq<string> := ["c", "cpp"]

  /** `get_file_extension`: the source file suffix, `.txt` for anything unknown. */
  function FileExtension(language: string): (ext: string)
    ensures language == "python" ==> ext == ".py"
    ensures language == "c" ==> ext == ".c"
    ensures language == "cpp" ==> ext == ".cpp"
    ensures language !in SupportedLanguages ==> ext == ".txt"
  {
    match language
    case "python" => ".py"
    case "c" => ".c"
    case "cpp" => ".cpp"
    case _ => ".txt"
  }

  /** `get_executable_extension`: `.exe` exactly on Windows. */
  function ExecutableExtension(host: Host): (ext: string)
    ensures ext == ".exe" <==> host == Windows
    ensures ext == ".out" <==> host == Posix
  {
    assert ".exe"[1] != ".out"[1];
    match host
    case Windows => ".exe"
    case Posix => ".out"
  }

  /** `get_compile_command`: gcc/g++ on Windows, clang/clang++ elsewhere,
      compiling `filepath` into `outputPath`; none for other languages. */
  function CompileCommand(host: Host, filepath: string, language: string, outputPath: string): (cmd: Option<seq<string>>)
    ensures cmd.Some? <==> language in CompiledLanguages
    ensures cmd.Some? ==> |cmd.value| == 4 && cmd.value[1..] == [filepath, "-o", outputPath]
    ensures cmd.Some? && language == "c" ==> cmd.value[0] in {"gcc", "clang"}
    ensures cmd.Some? && language == "cpp" ==> cmd.value[0] in {"g++", "clang++"}
    ensures cmd.Some? ==> (cmd.value[0] in {"gcc", "g++"} <==> host == Windows)
  {
    if language == "c" then
      if host == Windows then Some(["gcc", filepath, "-o", outputPath])
      else Some(["clang", filepath, "-o", outputPath])
    else if language == "cpp" then
      if host == Windows then Some(["g++", filepath, "-o", outputPath])
      else Some(["clang++", filepath, "-o", outputPath])
    else None
  }

  /** `get_run_command`: the interpreter for Python, the built executable for
      C and C++, nothing for other languages. */
  function RunCommand(filepath: string, language: string, executablePath: string): (cmd: seq<string>)
    ensures cmd != [] <==> language in SupportedLanguages
    ensures language in CompiledLanguages ==> cmd == [executablePath]
    ensures language == "python" ==> cmd == ["python", filepath]
  {
    if language == "python" then ["python", filepath]
    else if language in CompiledLanguages then [executablePath]
    else []
  }

  /** What one `subprocess.run` of a compiler gives: an exit status with its
      stderr, FileNotFoundError, or TimeoutExpired after 10 seconds. */
  datatype ToolOutcome = Ran(returnCode: int, stderr: string) | NotFound | TimedOut

  /** The result of the compile step. */
  datatype CompileResult = Built | NoCompiler | Failed(stderr: string) | CompileTimedOut

  /** The command retried when the first compiler is missing: clang/clang++
      on Windows; elsewhere the first command is left as it was. */
  function FallbackCommand(host: Host, filepath: string, language: string, outputPath: string, first: seq<string>): (cmd: seq<string>)
    ensures host == Windows && language in CompiledLanguages ==>
              Some(cmd) == CompileCommand(Posix, filepath, language, outputPath)
    ensures host == Posix || language !in CompiledLanguages ==> cmd == first
  {
    if language == "c" && host == Windows then ["clang", filepath, "-o", outputPath]
    else if language == "cpp" && host == Windows then ["clang++", filepath, "-o", outputPath]
    else first
  }

  /** The compile step: run the compiler; when it is missing, run the
      fallback once; a missing fallback is "Compiler not found", a non-zero
      exit a compilation error carrying stderr, a timeout escapes as an
      exception. `toolchain` says what running a command gives. */
  function Compile(host: Host, filepath: string, language: string, outputPath: string,
                   toolchain: seq<string> -> ToolOutcome): (r: CompileResult)
    requires language in CompiledLanguages
    ensures var first := CompileCommand(host, filepath, language, outputPath).value;
            var second := FallbackCommand(host, filepath, language, outputPath, first);
            var used := if toolchain(first).NotFound? then toolchain(second) else toolchain(first);
            && (r == NoCompiler <==> toolchain(first).NotFound? && toolchain(second).NotFound?)
            && (r == Built <==> used.Ran? && used.returnCode == 0)
            && (r.Failed? <==> used.Ran? && used.returnCode != 0)
            && (r.Failed? ==> r.stderr == used.stderr)
    ensures host == Posix ==>
              (r == NoCompiler <==> toolchain(CompileCommand(host, filepath, language, outputPath).value).NotFound?)
  {
    var first := CompileCommand(host, filepath, language, outputPath).value;
    var outcome := if toolchain(first).NotFound?
                   then toolchain(FallbackCommand(host, filepath, language, outputPath, first))
                   else toolchain(first);
    match outcome
    case NotFound => NoCompiler
    case TimedOut => CompileTimedOut
    case Ran(code, stderr) => if code != 0 then Failed(stderr) else Built
  }
}
