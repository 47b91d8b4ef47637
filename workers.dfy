/** What the per-session worker threads do, as functions of what they read:
    the two stream readers that fill the output queue and the input feeder
    that copies the input queue to the process's stdin. */
module Workers {
  import opened Wrappers
  import opened Text
  import opened OutputQueue

  datatype Stream = Stdout | Stderr

  /** The stdout reader tags its lines `'output'`, the stderr reader `'error'`. */
  function TagOf(stream: Stream): Tag {
    if stream == Stdout then Output else Error
  }

  /** A non-empty line a reader got from `readline()`, trailing newline included. */
  datatype Arrival = Arrival(stream: Stream, line: string)

  /** The queue entry a reader pushes for a line. */
  function ArrivalEntry(a: Arrival): Entry {
    Entry(TagOf(a.stream), Rstrip(a.line))
  }

  /** The entries the readers push for `arrivals`, in the order they arrive. */
  function Delivered(arrivals: seq<Arrival>): (q: seq<Entry>)
    ensures |q| == |arrivals|
    ensures forall i | 0 <= i < |arrivals| :: q[i] == ArrivalEntry(arrivals[i])
  {
    if arrivals == [] then []
    else Delivered(arrivals[..|arrivals| - 1]) + [ArrivalEntry(arrivals[|arrivals| - 1])]
  }

  /** Some stdout line among `arrivals` looks like a prompt: the only way the
      readers set `is_waiting_for_input`. */
  predicate PromptArrived(arrivals: seq<Arrival>) {
    exists i | 0 <= i < |arrivals| :: arrivals[i].stream == Stdout && LooksLikePrompt(arrivals[i].line)
  }

  /** Taking one more arrival into account. */
  lemma ArrivedSnoc(arrivals: seq<Arrival>, i: int)
    requires 0 <= i < |arrivals|
    ensures Delivered(arrivals[..i + 1]) == Delivered(arrivals[..i]) + [ArrivalEntry(arrivals[i])]
    ensures PromptArrived(arrivals[..i + 1]) ==
              (PromptArrived(arrivals[..i]) || (arrivals[i].stream == Stdout && LooksLikePrompt(arrivals[i].line)))
  {
    var pre, ext := arrivals[..i], arrivals[..i + 1];
    assert ext[..i] == pre;
    assert ext[i] == arrivals[i];
    if PromptArrived(pre) {
      var j :| 0 <= j < i && pre[j].stream == Stdout && LooksLikePrompt(pre[j].line);
      assert ext[j] == pre[j];
    }
    if PromptArrived(ext) {
      var j :| 0 <= j < i + 1 && ext[j].stream == Stdout && LooksLikePrompt(ext[j].line);
      if j < i {
        assert pre[j] == ext[j];
      }
    }
  }

  predicate NonEmptyLines(arrivals: seq<Arrival>) {
    forall i | 0 <= i < |arrivals| :: arrivals[i].line != ""
  }

  /** One `readline()` of a reader: the line (empty at end of file) with
      whether `poll()` then reports the process exited, or an exception. */
  datatype Read = Line(text: string, exited: bool) | Fault(message: string)

  /** The reader leaves its loop: end of file after the process exited, or an exception. */
  predicate EndsReader(r: Read) {
    r.Fault? || (r.text == "" && r.exited)
  }

  /** How many reads a reader's loop consumes: up to and including the
      first that ends it, or all of them. */
  function ReaderStop(results: seq<Read>): (n: nat)
    ensures n <= |results|
  {
    if results == [] then 0
    else if EndsReader(results[0]) then 1
    else 1 + ReaderStop(results[1..])
  }

  /** The reader stops at its first ending read and at no earlier one. */
  lemma {:induction false} ReaderStopIsFirstEnd(results: seq<Read>)
    ensures var n := ReaderStop(results);
            && (forall j | 0 <= j < n - 1 :: !EndsReader(results[j]))
            && (n < |results| ==> 0 < n && EndsReader(results[n - 1]))
            && (results != [] ==> 0 < n)
  {
    if results != [] && !EndsReader(results[0]) {
      ReaderStopIsFirstEnd(results[1..]);
    }
  }

  function FaultPrefix(stream: Stream): string {
    if stream == Stdout then "Output reader error: " else "Error reader error: "
  }

  /** What one read pushes onto the queue: a non-empty line stripped and
      tagged by stream, a fault as an `'error'` entry, nothing at end of file. */
  function ReadPushes(stream: Stream, r: Read): seq<Entry> {
    match r
    case Line(text, _) => if text != "" then [ArrivalEntry(Arrival(stream, text))] else []
    case Fault(message) => [Entry(Error, FaultPrefix(stream) + message)]
  }

  function ReaderPushes(stream: Stream, results: seq<Read>): seq<Entry> {
    if results == [] then []
    else ReaderPushes(stream, results[..|results| - 1]) + ReadPushes(stream, results[|results| - 1])
  }

  /** Taking one more read into account. */
  lemma ReadSnoc(stream: Stream, results: seq<Read>, i: int)
    requires 0 <= i < |results|
    ensures ReaderPushes(stream, results[..i + 1]) == ReaderPushes(stream, results[..i]) + ReadPushes(stream, results[i])
    ensures ReaderPrompted(stream, results[..i + 1]) ==
              (ReaderPrompted(stream, results[..i]) || (stream == Stdout && PromptRead(results[i])))
    ensures ReaderStop(results[i..]) == if EndsReader(results[i]) then 1 else 1 + ReaderStop(results[i + 1..])
  {
    assert results[..i + 1][..i] == results[..i];
    assert results[i..][1..] == results[i + 1..];
  }

  /** A read on stdout gave a line that looks like a prompt. */
  predicate ReaderPrompted(stream: Stream, results: seq<Read>) {
    results != [] &&
    (ReaderPrompted(stream, results[..|results| - 1]) ||
     (stream == Stdout && PromptRead(results[|results| - 1])))
  }

  predicate PromptRead(r: Read) {
    r.Line? && r.text != "" && LooksLikePrompt(r.text)
  }

  /** The stdout reader's verdict: some line it read looks like a prompt. */
  lemma {:induction false} ReaderPromptedIff(stream: Stream, results: seq<Read>)
    ensures ReaderPrompted(stream, results) <==>
            stream == Stdout && exists i | 0 <= i < |results| :: PromptRead(results[i])
  {
    if results != [] {
      var init := results[..|results| - 1];
      ReaderPromptedIff(stream, init);
      if stream == Stdout && (exists i | 0 <= i < |results| :: PromptRead(results[i])) {
        var i :| 0 <= i < |results| && PromptRead(results[i]);
        if i < |init| {
          assert PromptRead(init[i]);
        }
      }
    }
  }

  /** Only the stdout reader ever marks the session as waiting for input. */
  lemma {:induction false} StderrNeverPrompts(results: seq<Read>)
    ensures !ReaderPrompted(Stderr, results)
  {
    if results != [] {
      StderrNeverPrompts(results[..|results| - 1]);
    }
  }

  /** The line a read hands on as an arrival: a non-empty line; nothing at
      end of file or on a fault. */
  function ReadArrivals(stream: Stream, r: Read): seq<Arrival> {
    if r.Line? && r.text != "" then [Arrival(stream, r.text)] else []
  }

  /** The lines a reader read, as the arrivals a handler's wait sees. */
  function LinesRead(stream: Stream, results: seq<Read>): seq<Arrival> {
    if results == [] then []
    else LinesRead(stream, results[..|results| - 1]) + ReadArrivals(stream, results[|results| - 1])
  }

  /** Appending one arrival appends its entry. */
  lemma DeliveredSnoc(arrivals: seq<Arrival>, a: Arrival)
    ensures Delivered(arrivals + [a]) == Delivered(arrivals) + [ArrivalEntry(a)]
    ensures PromptArrived(arrivals + [a]) == (PromptArrived(arrivals) || (a.stream == Stdout && LooksLikePrompt(a.line)))
  {
    var ext := arrivals + [a];
    ArrivedSnoc(ext, |arrivals|);
    assert ext[..|arrivals|] == arrivals && ext[..|arrivals| + 1] == ext;
  }

  /** Without faults, what a reader's loop pushes and whether it raises the
      waiting flag are exactly what the arrivals of the lines it read give:
      the handlers' view of the readers agrees with the readers' loop. */
  lemma {:induction false} ReadsAreArrivals(stream: Stream, results: seq<Read>)
    requires forall i | 0 <= i < |results| :: results[i].Line?
    ensures NonEmptyLines(LinesRead(stream, results))
    ensures ReaderPushes(stream, results) == Delivered(LinesRead(stream, results))
    ensures ReaderPrompted(stream, results) <==> PromptArrived(LinesRead(stream, results))
  {
    if results != [] {
      var init, r := results[..|results| - 1], results[|results| - 1];
      ReadsAreArrivals(stream, init);
      var a := LinesRead(stream, init);
      if r.text != "" {
        DeliveredSnoc(a, Arrival(stream, r.text));
      } else {
        assert a + [] == a;
      }
    }
  }

  /** The last line of a drain's output is the text of some `'output'` entry. */
  lemma {:induction false} LastOutputIsEntry(q: seq<Entry>)
    requires Outputs(q) != []
    ensures exists i | 0 <= i < |q| :: q[i].tag == Output && q[i].text == Outputs(q)[|Outputs(q)| - 1]
  {
    var rest := Outputs(q[1..]);
    if rest != [] {
      LastOutputIsEntry(q[1..]);
      var i :| 0 <= i < |q[1..]| && q[1..][i].tag == Output && q[1..][i].text == rest[|rest| - 1];
      assert q[i + 1] == q[1..][i];
    } else {
      assert q[0].tag == Output;
    }
  }

  /** One prompt-like stdout arrival is enough. */
  lemma PromptArrivedAt(arrivals: seq<Arrival>, i: int)
    requires 0 <= i < |arrivals| && arrivals[i].stream == Stdout && LooksLikePrompt(arrivals[i].line)
    ensures PromptArrived(arrivals)
  {
  }

  /** The handler's check on the last output line never sees a prompt that
      the stdout reader did not see: if the output of freshly delivered
      lines ends in a prompt-like line, a prompt-like line arrived. */
  lemma EndsInPromptArrived(arrivals: seq<Arrival>)
    ensures EndsInPrompt(Outputs(Delivered(arrivals))) ==> PromptArrived(arrivals)
  {
    var q := Delivered(arrivals);
    var outs := Outputs(q);
    if outs != [] && LooksLikePrompt(outs[|outs| - 1]) {
      LastOutputIsEntry(q);
      var i :| 0 <= i < |q| && q[i].tag == Output && q[i].text == outs[|outs| - 1];
      var line := arrivals[i].line;
      assert Rstrip(line) == outs[|outs| - 1];
      PromptIgnoresTrailingSpace(line);
      PromptArrivedAt(arrivals, i);
    }
  }

  /** What `readline()` returns: a newline can only be the last character. */
  predicate ReadlineShape(line: string) {
    forall i | 0 <= i < |line| - 1 :: line[i] != '\n'
  }

  /** Stripping a `readline()` line leaves no newline in it. */
  lemma StrippedLineHasNoNewline(line: string)
    requires ReadlineShape(line)
    ensures NoNewline(Rstrip(line))
  {
    var r := Rstrip(line);
    forall i | 0 <= i < |r|
      ensures r[i] != '\n'
    {
      if i == |r| - 1 {
        assert !IsSpace(r[i]);
      } else {
        assert r[i] == line[i];
      }
    }
  }

  /** A drain of entries whose texts hold no newline yields lines that hold none. */
  lemma {:induction false} TextsHaveNoNewline(q: seq<Entry>, t: Tag)
    requires forall i | 0 <= i < |q| :: NoNewline(q[i].text)
    ensures forall j | 0 <= j < |Texts(q, t)| :: NoNewline(Texts(q, t)[j])
  {
    if q != [] {
      TextsHaveNoNewline(q[1..], t);
    }
  }

  /** The lines a drain of delivered `readline()` lines yields hold no
      newline, so joining them with newlines and splitting again gives them
      back (`SplitJoin`). */
  lemma DeliveredLinesHaveNoNewline(arrivals: seq<Arrival>, t: Tag)
    requires forall i | 0 <= i < |arrivals| :: ReadlineShape(arrivals[i].line)
    ensures forall j | 0 <= j < |Texts(Delivered(arrivals), t)| :: NoNewline(Texts(Delivered(arrivals), t)[j])
  {
    var q := Delivered(arrivals);
    forall i | 0 <= i < |q|
      ensures NoNewline(q[i].text)
    {
      StrippedLineHasNoNewline(arrivals[i].line);
    }
    TextsHaveNoNewline(q, t);
  }

  /** What the input feeder sees on one turn of its loop: an item from the
      input queue (`None` is the stop signal) or a 0.1 s timeout, each with
      whether the process is still running at that moment; or an item for a
      running process whose write to stdin raises (a closed pipe). */
  datatype FeederEvent = Got(item: Option<string>, running: bool) | Idle(running: bool) | Broken(value: string)

  /** The feeder leaves its loop on the stop signal, when idle after the
      process exited, or when a write raises. */
  predicate EndsFeeder(e: FeederEvent) {
    match e
    case Got(item, _) => item.None?
    case Idle(running) => !running
    case Broken(_) => true
  }

  /** What one event writes to stdin: the value and a newline while the
      process runs; a value for an exited process is dropped. */
  function Writes(e: FeederEvent): string {
    if e.Got? && e.item.Some? && e.running then e.item.value + "\n" else ""
  }

  function Written(events: seq<FeederEvent>): string {
    if events == [] then ""
    else Written(events[..|events| - 1]) + Writes(events[|events| - 1])
  }

  /** Taking one more feeder event into account. */
  lemma WrittenSnoc(events: seq<FeederEvent>, i: int)
    requires 0 <= i < |events|
    ensures Written(events[..i + 1]) == Written(events[..i]) + Writes(events[i])
  {
    assert events[..i + 1][..i] == events[..i];
  }

  /** Every line the feeder hands to the process is terminated by a newline,
      so the process never sees a partial line. */
  lemma {:induction false} WrittenEndsLines(events: seq<FeederEvent>)
    ensures Written(events) == [] || Written(events)[|Written(events)| - 1] == '\n'
  {
    if events != [] {
      WrittenEndsLines(events[..|events| - 1]);
    }
  }

  /** `input_writer`: consumes events up to and including the first that
      ends it (all of them if none does) and returns the text written to the
      process's stdin. */
  method InputWriter(events: seq<FeederEvent>) returns (written: string, consumed: nat)
    ensures consumed <= |events|
    ensures forall j | 0 <= j < consumed - 1 :: !EndsFeeder(events[j])
    ensures consumed < |events| ==> 0 < consumed && EndsFeeder(events[consumed - 1])
    ensures written == Written(events[..consumed])
  {
    written, consumed := "", 0;
    while consumed < |events|
      invariant consumed <= |events|
      invariant forall j | 0 <= j < consumed :: !EndsFeeder(events[j])
      invariant written == Written(events[..consumed])
    {
      var e := events[consumed];
      WrittenSnoc(events, consumed);
      consumed := consumed + 1;
      if EndsFeeder(e) {
        return;
      }
      if e.Got? && e.running {
        written := written + (e.item.value + "\n");
      }
    }
  }
}
