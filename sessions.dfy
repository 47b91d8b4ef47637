/** `ExecutionSession`: the state one execution shares between the request
    handlers and its worker threads. */
module Sessions {
  import opened Wrappers
  import opened Text
  import opened Scratch
  import opened OutputQueue
  import opened Workers

  /** A request to stop the process: `terminate()`/SIGTERM, then `kill()`. */
  datatype Signal = Term | Kill

  /** What happens while a handler waits for output: the lines the readers
      deliver (in the order the two threads interleave), whether the
      process has exited by the end, and how many queued entries the timed
      drain took before its deadline. */
  datatype Window = Window(arrivals: seq<Arrival>, exits: bool, taken: nat)

  /** The drain can only take entries that are queued. */
  predicate Fits(w: Window, queued: nat) {
    NonEmptyLines(w.arrivals) && w.taken <= queued + |w.arrivals|
  }

  class ExecutionSession {
    const sessionId: string
    /** The scratch paths to remove when the session ends. */
    const tempFiles: seq<Path>
    /** `process.poll() is not None` */
    var exited: bool
    /** The stop requests sent to the process, in order. */
    var signals: seq<Signal>
    /** Lines for the process's stdin; `None` stops the feeder. */
    var inputQueue: seq<Option<string>>
    var outputQueue: seq<Entry>
    var isWaitingForInput: bool
    var isComplete: bool
    var finalOutput: string
    var errorOutput: string

    /** A session for a freshly launched process. */
    constructor (sessionId: string, tempFiles: seq<Path>)
      ensures this.sessionId == sessionId && this.tempFiles == tempFiles
      ensures !exited && signals == [] && inputQueue == [] && outputQueue == []
      ensures !isWaitingForInput && !isComplete && finalOutput == "" && errorOutput == ""
    {
      this.sessionId := sessionId;
      this.tempFiles := tempFiles;
      exited := false;
      signals := [];
      inputQueue := [];
      outputQueue := [];
      isWaitingForInput := false;
      isComplete := false;
      finalOutput := "";
      errorOutput := "";
    }

    /** One pass of a reader's loop with a non-empty line: push it stripped
        and tagged; on stdout, a prompt-like line sets the waiting flag. */
    method Deliver(a: Arrival)
      requires a.line != ""
      modifies this`outputQueue, this`isWaitingForInput
      ensures outputQueue == old(outputQueue) + [ArrivalEntry(a)]
      ensures isWaitingForInput == (old(isWaitingForInput) || (a.stream == Stdout && LooksLikePrompt(a.line)))
    {
      outputQueue := outputQueue + [Entry(TagOf(a.stream), Rstrip(a.line))];
      if a.stream == Stdout && LooksLikePrompt(a.line) {
        isWaitingForInput := true;
      }
    }

    /** The lines both readers deliver while a request handler waits, in
        the order the two threads interleave them. */
    method Absorb(arrivals: seq<Arrival>)
      requires NonEmptyLines(arrivals)
      modifies this`outputQueue, this`isWaitingForInput
      ensures outputQueue == old(outputQueue) + Delivered(arrivals)
      ensures isWaitingForInput == (old(isWaitingForInput) || PromptArrived(arrivals))
    {
      for i := 0 to |arrivals|
        invariant outputQueue == old(outputQueue) + Delivered(arrivals[..i])
        invariant isWaitingForInput == (old(isWaitingForInput) || PromptArrived(arrivals[..i]))
      {
        ArrivedSnoc(arrivals, i);
        AppendAssoc(old(outputQueue), Delivered(arrivals[..i]), [ArrivalEntry(arrivals[i])]);
        Deliver(arrivals[i]);
      }
      assert arrivals[..|arrivals|] == arrivals;
    }

    /** The loop shared by both readers: read until end of file after exit
        or an exception, pushing what each read yields. */
    method ReadLoop(stream: Stream, results: seq<Read>) returns (consumed: nat)
      modifies this`outputQueue, this`isWaitingForInput
      ensures consumed == ReaderStop(results)
      ensures outputQueue == old(outputQueue) + ReaderPushes(stream, results[..consumed])
      ensures isWaitingForInput == (old(isWaitingForInput) || ReaderPrompted(stream, results[..consumed]))
    {
      consumed := 0;
      while consumed < |results|
        invariant consumed <= |results|
        invariant ReaderStop(results) == consumed + ReaderStop(results[consumed..])
        invariant outputQueue == old(outputQueue) + ReaderPushes(stream, results[..consumed])
        invariant isWaitingForInput == (old(isWaitingForInput) || ReaderPrompted(stream, results[..consumed]))
      {
        var r := results[consumed];
        ReadSnoc(stream, results, consumed);
        AppendAssoc(old(outputQueue), ReaderPushes(stream, results[..consumed]), ReadPushes(stream, r));
        consumed := consumed + 1;
        outputQueue := outputQueue + ReadPushes(stream, r);
        if stream == Stdout && PromptRead(r) {
          isWaitingForInput := true;
        }
        if EndsReader(r) {
          return;
        }
      }
    }

    /** `output_reader` */
    method OutputReader(results: seq<Read>) returns (consumed: nat)
      modifies this`outputQueue, this`isWaitingForInput
      ensures consumed == ReaderStop(results)
      ensures outputQueue == old(outputQueue) + ReaderPushes(Stdout, results[..consumed])
      ensures isWaitingForInput == (old(isWaitingForInput) || ReaderPrompted(Stdout, results[..consumed]))
    {
      consumed := ReadLoop(Stdout, results);
    }

    /** `error_reader`: the same loop on stderr, which never touches the
        waiting flag. */
    method ErrorReader(results: seq<Read>) returns (consumed: nat)
      modifies this`outputQueue, this`isWaitingForInput
      ensures consumed == ReaderStop(results)
      ensures outputQueue == old(outputQueue) + ReaderPushes(Stderr, results[..consumed])
      ensures isWaitingForInput == old(isWaitingForInput)
    {
      consumed := ReadLoop(Stderr, results);
      StderrNeverPrompts(results[..consumed]);
    }

    /** The timed drain: `get_nowait()` until the deadline, which here has
        let `k` entries through. */
    method DrainUpTo(k: nat) returns (outs: seq<string>, errs: seq<string>)
      requires k <= |outputQueue|
      modifies this`outputQueue
      ensures outs == Outputs(old(outputQueue)[..k]) && errs == Errors(old(outputQueue)[..k])
      ensures outputQueue == old(outputQueue)[k..]
    {
      ghost var q := outputQueue;
      outs, errs := [], [];
      var i := 0;
      while i < k
        invariant i <= k
        invariant outputQueue == q[i..]
        invariant outs == Outputs(q[..i]) && errs == Errors(q[..i])
      {
        var e := outputQueue[0];
        outputQueue := outputQueue[1..];
        TextsAppend(q[..i], [e], Output);
        TextsAppend(q[..i], [e], Error);
        assert q[..i + 1] == q[..i] + [e];
        if e.tag == Output {
          outs := outs + [e.text];
        } else {
          errs := errs + [e.text];
        }
        i := i + 1;
      }
    }

    /** The non-blocking full drain: `get_nowait()` while the queue is not empty. */
    method DrainAll() returns (outs: seq<string>, errs: seq<string>)
      modifies this`outputQueue
      ensures outs == Outputs(old(outputQueue)) && errs == Errors(old(outputQueue))
      ensures outputQueue == []
      ensures exited == old(exited) && isComplete == old(isComplete)
      ensures inputQueue == old(inputQueue) && signals == old(signals)
    {
      ghost var q := outputQueue;
      outs, errs := [], [];
      while outputQueue != []
        invariant |outputQueue| <= |q| && outputQueue == q[|q| - |outputQueue|..]
        invariant outs == Outputs(q[..|q| - |outputQueue|]) && errs == Errors(q[..|q| - |outputQueue|])
        decreases |outputQueue|
      {
        ghost var i := |q| - |outputQueue|;
        var e := outputQueue[0];
        outputQueue := outputQueue[1..];
        TextsAppend(q[..i], [e], Output);
        TextsAppend(q[..i], [e], Error);
        assert q[..i + 1] == q[..i] + [e];
        if e.tag == Output {
          outs := outs + [e.text];
        } else {
          errs := errs + [e.text];
        }
      }
      assert q[..|q|] == q;
    }

    /** A handler that sees the process gone records the final output and
        tells the input feeder to stop. */
    method Finish(outputLines: seq<string>, errorLines: seq<string>)
      modifies this`isComplete, this`finalOutput, this`errorOutput, this`inputQueue
      ensures exited == old(exited) && outputQueue == old(outputQueue) && isWaitingForInput == old(isWaitingForInput)
      ensures isComplete && inputQueue == old(inputQueue) + [None]
      ensures finalOutput == JoinLines(outputLines) && errorOutput == JoinLines(errorLines)
    {
      isComplete := true;
      finalOutput := JoinLines(outputLines);
      errorOutput := JoinLines(errorLines);
      inputQueue := inputQueue + [None];
    }

    /** The wait shared by `execute_code` and `provide_input`: the readers
        deliver what the process prints while the handler sleeps, then the
        timed drain takes what it can before its deadline. */
    method Await(w: Window) returns (outputLines: seq<string>, errorLines: seq<string>)
      requires !exited && Fits(w, |outputQueue|)
      modifies this`isWaitingForInput, this`outputQueue, this`exited
      ensures exited == w.exits
      ensures isComplete == old(isComplete) && inputQueue == old(inputQueue) && signals == old(signals)
      ensures finalOutput == old(finalOutput) && errorOutput == old(errorOutput)
      ensures isWaitingForInput == (old(isWaitingForInput) || PromptArrived(w.arrivals))
      ensures var q := old(outputQueue) + Delivered(w.arrivals);
              && outputLines == Outputs(q[..w.taken]) && errorLines == Errors(q[..w.taken])
              && outputQueue == q[w.taken..]
    {
      Absorb(w.arrivals);
      if w.exits {
        exited := true;
      }
      outputLines, errorLines := DrainUpTo(w.taken);
    }

    /** The part of `provide_input` that talks to a live process: queue the
        line, clear the waiting flag, wait out the window and drain. When
        the process has exited meanwhile the rest of the queue is drained
        too; otherwise the flag is recomputed from the last output line. */
    method Converse(input: string, w: Window) returns (outputLines: seq<string>, errorLines: seq<string>)
      requires !exited && Fits(w, |outputQueue|)
      modifies this`inputQueue, this`isWaitingForInput, this`outputQueue, this`exited
      ensures inputQueue == old(inputQueue) + [Some(input)]
      ensures exited == w.exits
      ensures var q := old(outputQueue) + Delivered(w.arrivals);
              if w.exits then
                outputLines == Outputs(q) && errorLines == Errors(q) && outputQueue == []
              else
                && outputLines == Outputs(q[..w.taken]) && errorLines == Errors(q[..w.taken])
                && outputQueue == q[w.taken..]
                && isWaitingForInput == EndsInPrompt(outputLines)
    {
      inputQueue := inputQueue + [Some(input)];
      isWaitingForInput := false;
      ghost var q := outputQueue + Delivered(w.arrivals);
      outputLines, errorLines := Await(w);
      if exited {
        outputLines, errorLines := DrainRest(q, w.taken, outputLines, errorLines);
      } else {
        Reassess(outputLines);
      }
    }

    /** After a timed drain of the first `taken` entries of `q`, drain the
        rest too: the combined lists are those of all of `q`. */
    method DrainRest(ghost q: seq<Entry>, taken: nat, outs: seq<string>, errs: seq<string>)
        returns (outputLines: seq<string>, errorLines: seq<string>)
      requires taken <= |q| && outputQueue == q[taken..]
      requires outs == Outputs(q[..taken]) && errs == Errors(q[..taken])
      modifies this`outputQueue
      ensures outputLines == Outputs(q) && errorLines == Errors(q) && outputQueue == []
      ensures exited == old(exited) && isWaitingForInput == old(isWaitingForInput)
      ensures inputQueue == old(inputQueue)
    {
      var restOutput, restErrors := DrainAll();
      assert q == q[..taken] + q[taken..];
      TextsAppend(q[..taken], q[taken..], Output);
      TextsAppend(q[..taken], q[taken..], Error);
      outputLines := outs + restOutput;
      errorLines := errs + restErrors;
    }

    /** The handler's own prompt check: the flag is set again exactly when
        the last line of the response looks like a prompt. */
    method Reassess(outputLines: seq<string>)
      modifies this`isWaitingForInput
      ensures isWaitingForInput == EndsInPrompt(outputLines)
    {
      isWaitingForInput := false;
      if outputLines != [] {
        if LooksLikePrompt(outputLines[|outputLines| - 1]) {
          isWaitingForInput := true;
        }
      }
    }
  }

  lemma EmptyQueueThen(q: seq<Entry>)
    ensures [] + q == q
  {
  }

  /** The session `execute_code` creates for a launched process, with the
      output its readers delivered during the first wait and what the timed
      drain took of it. */
  method Spawn(sessionId: string, tempFiles: seq<Path>, w: Window)
    returns (s: ExecutionSession, outputLines: seq<string>, errorLines: seq<string>)
    requires Fits(w, 0)
    ensures fresh(s)
    ensures s.sessionId == sessionId && s.tempFiles == tempFiles
    ensures s.exited == w.exits && !s.isComplete && s.inputQueue == [] && s.signals == []
    ensures s.finalOutput == "" && s.errorOutput == ""
    ensures s.isWaitingForInput == PromptArrived(w.arrivals)
    ensures var q := Delivered(w.arrivals);
            && outputLines == Outputs(q[..w.taken]) && errorLines == Errors(q[..w.taken])
            && s.outputQueue == q[w.taken..]
  {
    s := new ExecutionSession(sessionId, tempFiles);
    ghost var q := Delivered(w.arrivals);
    EmptyQueueThen(q);
    outputLines, errorLines := s.Await(w);
  }
}
