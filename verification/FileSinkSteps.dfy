/** When the log file rotates, what goes where and what a line weighs, over every run
    (src/services/FileSink.ts). */
module FileSinkSteps {
  import opened FileSink

  // ----- Bytes -----

  /** How many code points UTF-8 writes in at most `n` bytes (RFC 3629, section 3). */
  function Capacity(n: nat): int {
    if n == 0 then 0
    else if n == 1 then 0x80
    else if n == 2 then 0x20 * 0x40
    else if n == 3 then 0x10 * 0x40 * 0x40
    else 0x8 * 0x40 * 0x40 * 0x40
  }

  /** A character takes the fewest bytes that can hold it. */
  lemma FewestBytes(c: char)
    ensures 1 <= Utf8Length(c) <= 4
    ensures Capacity(Utf8Length(c) - 1) <= c as int < Capacity(Utf8Length(c))
  {
  }

  lemma {:induction false} BytesAdd(a: string, b: string)
    ensures Bytes(a + b) == Bytes(a) + Bytes(b)
  {
    if a == "" {
      assert a + b == b;
    } else {
      assert (a + b)[1..] == a[1..] + b;
      BytesAdd(a[1..], b);
    }
  }

  /** A batch weighs its lines and one newline each. */
  lemma {:induction false} PayloadWeighs(batch: Batch, line: string)
    ensures Bytes(Payload(batch + [line])) == Bytes(Payload(batch)) + Bytes(line) + 1
    ensures Payload([]) == "" && Bytes("") == 0
  {
    assert Bytes("\n") == 1 + Bytes("");
    if batch == [] {
      assert [line][1..] == [] && Payload([line]) == line + "\n" + "";
      assert line + "\n" + "" == line + "\n";
      BytesAdd(line, "\n");
    } else {
      var rest := batch[1..];
      assert (batch + [line])[1..] == rest + [line];
      PayloadWeighs(rest, line);
      BytesAdd(batch[0] + "\n", Payload(rest + [line]));
      BytesAdd(batch[0] + "\n", Payload(rest));
    }
  }

  // ----- Steps -----

  /** The queue with the line put in: a full one gives up its first line, and counts a drop. */
  function QueueWith(opts: Options, queue: seq<string>, line: string): seq<string> {
    if |queue| < opts.maxQueueLines then queue + [line]
    else if queue == [] then [line]
    else queue[1..] + [line]
  }

  /** What is queued when a step comes to flushing, and whether it flushes: a write does when
      nothing is to be waited for or the batch is full, the timer whenever there is something. */
  function ToFlush(opts: Options, s: Sink, step: Step): (seq<string>, bool) {
    match step
    case Write(line) =>
      var queue := QueueWith(opts, s.queue, line);
      (queue, opts.flushIntervalMs == 0 || |queue| >= opts.maxBatchLines)
    case Tick => (s.queue, s.queue != [])
    case Restart => (s.queue, false)
  }

  /** The batch goes to the base file if it fits there beside what that holds. Otherwise every
      file becomes the next one, the last is dropped, and the batch starts a new base. */
  ghost predicate GoesTo(opts: Options, files: Files, files': Files, batch: Batch) {
    var base := ContentOf(files, 0);
    if Size(base) + Bytes(Payload(batch)) <= opts.maxBytes then files' == files[0 := base + [batch]]
    else
      && ContentOf(files', 0) == [batch]
      && (forall n :: 1 <= n <= opts.maxFiles ==> ContentOf(files', n) == ContentOf(files, n - 1))
      && (forall n :: n < 0 || n > opts.maxFiles ==> (n in files' <==> n in files))
  }

  lemma FlushGoes(opts: Options, s: Sink)
    requires opts.maxFiles >= 1 && Sized(opts, s) && s.queue != []
    ensures GoesTo(opts, s.files, Flushed(opts, s).files, s.queue)
    ensures Flushed(opts, s).queue == [] && Flushed(opts, s).droppedLines == 0
  {
    var files', up := Flushed(opts, s).files, Rotated(opts, s.files);
    if s.bytesWritten + Bytes(Payload(s.queue)) > opts.maxBytes {
      forall n | n != 0
        ensures 1 <= n <= opts.maxFiles ==> ContentOf(files', n) == ContentOf(s.files, n - 1)
        ensures n < 0 || n > opts.maxFiles ==> (n in files' <==> n in s.files)
      {
        RotatedContents(opts, s.files, n);
      }
      RotatedContents(opts, s.files, 0);
      assert ContentOf(up, 0) == [] && [] + [s.queue] == [s.queue];
    }
  }

  /** Every step of every run: what is flushed and where it goes, or what is queued instead,
      and how many drops are to be reported. */
  lemma StepGoes(opts: Options, states: seq<World>, steps: seq<Step>, k: nat)
    requires IsRun(opts, states, steps) && k < |steps| && opts.maxFiles >= 1
    ensures var s, s', step := states[k].sink, states[k + 1].sink, steps[k];
            var (queue, flushes) := ToFlush(opts, s, step);
            var drop := if step.Write? && |s.queue| >= opts.maxQueueLines then 1 else 0;
            if step.Restart? then s'.files == s.files && s'.queue == [] && s'.droppedLines == 0
            else if flushes then
              && GoesTo(opts, s.files, s'.files, queue) && s'.queue == [] && s'.droppedLines == 0
              && states[k + 1].stream == states[k].stream + [queue]
              && states[k + 1].reported == states[k].reported + s.droppedLines + drop
            else
              s'.files == s.files && s'.queue == queue && s'.droppedLines == s.droppedLines + drop
  {
    var s := states[k].sink;
    FilesStaySmall(opts, states, steps, k);
    assert states[k + 1] == Next(opts, states[k], steps[k]);
    match steps[k]
    case Write(line) =>
      var queued := Queued(opts, s, line);
      assert queued.queue == QueueWith(opts, s.queue, line);
      FlushGoes(opts, queued);
    case Tick => if s.queue != [] { FlushGoes(opts, s); }
    case Restart =>
  }

  /** Between two steps the queue holds less than a batch, nothing if nothing is to be waited
      for, and never more than it may, or one line if it may hold none. */
  lemma {:induction false} QueueStaysShort(opts: Options, states: seq<World>, steps: seq<Step>, k: nat)
    requires IsRun(opts, states, steps) && k <= |steps|
    ensures |states[k].sink.queue| <= (if opts.maxQueueLines >= 1 then opts.maxQueueLines else 1)
    ensures opts.maxBatchLines >= 1 ==> |states[k].sink.queue| < opts.maxBatchLines
    ensures opts.flushIntervalMs == 0 ==> states[k].sink.queue == []
  {
    if k > 0 {
      QueueStaysShort(opts, states, steps, k - 1);
      assert states[k - 1 + 1] == Next(opts, states[k - 1], steps[k - 1]);
    }
  }
}
