/** The rotating log file (src/services/FileSink.ts). Files are maps from their number (0
    is the base, n is `.n`) to what was appended to them, batch by batch. */
module FileSink {
  datatype Options = Options(maxBytes: int, maxFiles: int, flushIntervalMs: int, maxQueueLines: int, maxBatchLines: int)

  type Batch = seq<string>

  type Files = map<int, seq<Batch>>

  datatype Sink = Sink(files: Files, bytesWritten: nat, queue: seq<string>, droppedLines: nat)

  // ----- Sizes -----

  function Utf8Length(c: char): nat {
    var n := c as int;
    if n < 0x80 then 1 else if n < 0x800 then 2 else if n < 0x10000 then 3 else 4
  }

  function Bytes(s: string): nat {
    if s == "" then 0 else Utf8Length(s[0]) + Bytes(s[1..])
  }

  /** The lines joined by newlines, and a last newline. */
  function Payload(batch: Batch): string {
    if batch == [] then "" else batch[0] + "\n" + Payload(batch[1..])
  }

  function Size(batches: seq<Batch>): nat {
    if batches == [] then 0 else Size(batches[..|batches| - 1]) + Bytes(Payload(batches[|batches| - 1]))
  }

  function ContentOf(files: Files, n: int): seq<Batch> {
    if n in files then files[n] else []
  }

  // ----- The operations as functions -----

  /** One round of the renaming loop, for file `i`. */
  function MoveUp(files: Files, i: int, maxFiles: int): Files {
    if i !in files then files
    else if i == maxFiles then files - {i}
    else (files - {i})[i + 1 := files[i]]
  }

  function MoveAllUp(files: Files, i: int, maxFiles: int): Files
    decreases i
  {
    if i < 1 then files else MoveAllUp(MoveUp(files, i, maxFiles), i - 1, maxFiles)
  }

  function Rotated(opts: Options, files: Files): Files {
    var up := MoveAllUp(files, opts.maxFiles, opts.maxFiles);
    if 0 in up then (up - {0})[1 := up[0]] else up
  }

  function Flushed(opts: Options, s: Sink): Sink {
    if s.queue == [] then s
    else
      var bytes := Bytes(Payload(s.queue));
      var full := s.bytesWritten + bytes > opts.maxBytes;
      var files := if full then Rotated(opts, s.files) else s.files;
      Sink(files[0 := ContentOf(files, 0) + [s.queue]], (if full then 0 else s.bytesWritten) + bytes, [], 0)
  }

  /** A full queue loses its first line; one that cannot hold any line still counts a drop. */
  function Queued(opts: Options, s: Sink, line: string): Sink {
    if |s.queue| >= opts.maxQueueLines
    then s.(queue := (if s.queue == [] then [] else s.queue[1..]) + [line], droppedLines := s.droppedLines + 1)
    else s.(queue := s.queue + [line])
  }

  predicate FlushesNow(opts: Options, queue: seq<string>) {
    opts.flushIntervalMs == 0 || |queue| >= opts.maxBatchLines
  }

  function Written(opts: Options, s: Sink, line: string): Sink {
    var queued := Queued(opts, s, line);
    if FlushesNow(opts, queued.queue) then Flushed(opts, queued) else queued
  }

  class NdjsonFileSink {
    const opts: Options
    var files: Files
    var bytesWritten: nat
    var queue: seq<string>
    var droppedLines: nat

    function State(): Sink
      reads this
    {
      Sink(files, bytesWritten, queue, droppedLines)
    }

    /** Over whatever files are there: the count starts at the base file's size. */
    constructor (opts: Options, files: Files)
      ensures this.opts == opts && State() == Sink(files, Size(ContentOf(files, 0)), [], 0)
    {
      this.opts, this.files := opts, files;
      bytesWritten := Size(ContentOf(files, 0));
      queue, droppedLines := [], 0;
    }

    method Write(line: string)
      modifies this
      ensures State() == Written(opts, old(State()), line)
    {
      if |queue| >= opts.maxQueueLines {
        if |queue| > 0 {
          queue := queue[1..];
        }
        droppedLines := droppedLines + 1;
      }
      queue := queue + [line];
      if opts.flushIntervalMs == 0 || |queue| >= opts.maxBatchLines {
        FlushNow();
      }
    }

    method FlushNow()
      modifies this
      ensures State() == Flushed(opts, old(State()))
    {
      if |queue| == 0 {
        return;
      }
      var lines := queue;
      queue := [];
      droppedLines := 0;
      var bytes := Bytes(Payload(lines));
      if bytesWritten + bytes > opts.maxBytes {
        Rotate();
      }
      files := files[0 := ContentOf(files, 0) + [lines]];
      bytesWritten := bytesWritten + bytes;
    }

    method Rotate()
      modifies `files, `bytesWritten
      ensures files == Rotated(opts, old(files)) && bytesWritten == 0
    {
      var i := opts.maxFiles;
      while i >= 1
        invariant MoveAllUp(files, i, opts.maxFiles) == MoveAllUp(old(files), opts.maxFiles, opts.maxFiles)
        decreases i
      {
        if i in files {
          if i == opts.maxFiles {
            files := files - {i};
          } else {
            files := (files - {i})[i + 1 := files[i]];
          }
        }
        i := i - 1;
      }
      if 0 in files {
        files := (files - {0})[1 := files[0]];
      }
      bytesWritten := 0;
    }
  }

  // ----- What a rotation does to each file -----

  lemma {:induction false} MovedUp(files: Files, i: int, maxFiles: int, n: int)
    requires i <= maxFiles && (i < maxFiles ==> i + 1 !in files)
    ensures var up := MoveAllUp(files, i, maxFiles);
            && (n < 1 || n > maxFiles || n > i + 1 ==>
                  ContentOf(up, n) == ContentOf(files, n) && (n in up <==> n in files))
            && (1 <= n <= maxFiles && n <= i + 1 ==>
                  ContentOf(up, n) == (if n == 1 then (if i < 1 then ContentOf(files, 1) else [])
                                       else ContentOf(files, n - 1)))
            && (1 <= i ==> 1 !in up)
    decreases i
  {
    if i >= 1 {
      var next := MoveUp(files, i, maxFiles);
      assert i !in next;
      MovedUp(next, i - 1, maxFiles, n);
    }
  }

  /** Every file takes over the one before it; the oldest kept file is dropped. */
  lemma RotatedContents(opts: Options, files: Files, n: int)
    requires opts.maxFiles >= 1
    ensures var r := Rotated(opts, files);
            && 0 !in r
            && (1 <= n <= opts.maxFiles ==> ContentOf(r, n) == ContentOf(files, n - 1))
            && (n < 0 || n > opts.maxFiles ==> (n in r <==> n in files))
  {
    MovedUp(files, opts.maxFiles, opts.maxFiles, n);
    MovedUp(files, opts.maxFiles, opts.maxFiles, 0);
  }

  // ----- Runs -----

  datatype Step = Write(line: string) | Tick | Restart

  /** The sink; every line ever written; every batch ever flushed; the drops reported so
      far; the lines and unreported drops a restart left behind. */
  datatype World = World(sink: Sink, written: seq<string>, stream: seq<Batch>, reported: nat, lost: nat)

  const START := World(Sink(map[], 0, [], 0), [], [], 0, 0)

  function AfterFlush(opts: Options, w: World): World {
    if w.sink.queue == [] then w
    else w.(sink := Flushed(opts, w.sink), stream := w.stream + [w.sink.queue],
            reported := w.reported + w.sink.droppedLines)
  }

  function Next(opts: Options, w: World, step: Step): World {
    match step
    case Write(line) =>
      var queued := w.(sink := Queued(opts, w.sink, line), written := w.written + [line]);
      if FlushesNow(opts, queued.sink.queue) then AfterFlush(opts, queued) else queued
    case Tick => AfterFlush(opts, w)
    case Restart =>
      w.(sink := Sink(w.sink.files, Size(ContentOf(w.sink.files, 0)), [], 0),
         lost := w.lost + |w.sink.queue| + w.sink.droppedLines)
  }

  ghost predicate IsRun(opts: Options, states: seq<World>, steps: seq<Step>) {
    && |states| == |steps| + 1 && states[0] == START
    && forall k :: 0 <= k < |steps| ==> states[k + 1] == Next(opts, states[k], steps[k])
  }

  /** On the sink, the steps of a run are the operations: `write`, `flushNow` (which a timer
      calls) and a new sink over the old files. */
  lemma StepsAreOperations(opts: Options, w: World, step: Step)
    ensures Next(opts, w, step).sink ==
            match step
            case Write(line) => Written(opts, w.sink, line)
            case Tick => Flushed(opts, w.sink)
            case Restart => Sink(w.sink.files, Size(ContentOf(w.sink.files, 0)), [], 0)
  {
    if step.Write? { assert Queued(opts, w.sink, step.line).queue != []; }
  }

  // ----- The files are a suffix of the stream -----

  /** The files read from the oldest to the base. */
  function Reading(files: Files, n: int): seq<Batch>
    decreases n
  {
    if n < 0 then [] else ContentOf(files, n) + Reading(files, n - 1)
  }

  ghost predicate SuffixOf(part: seq<Batch>, whole: seq<Batch>) {
    |part| <= |whole| && whole[|whole| - |part|..] == part
  }

  lemma {:induction false} RotatedReading(opts: Options, files: Files, n: int)
    requires opts.maxFiles >= 1 && 0 <= n <= opts.maxFiles
    ensures Reading(Rotated(opts, files), n) == Reading(files, n - 1)
    decreases n
  {
    RotatedContents(opts, files, n);
    if n > 0 { RotatedReading(opts, files, n - 1); }
  }

  lemma RotationDropsTheOldest(opts: Options, files: Files)
    requires opts.maxFiles >= 0
    ensures SuffixOf(Reading(Rotated(opts, files), opts.maxFiles), Reading(files, opts.maxFiles))
  {
    var whole, part := Reading(files, opts.maxFiles), Reading(Rotated(opts, files), opts.maxFiles);
    if opts.maxFiles >= 1 {
      RotatedReading(opts, files, opts.maxFiles);
      assert whole == ContentOf(files, opts.maxFiles) + part;
    } else {
      assert Rotated(opts, files) == if 0 in files then (files - {0})[1 := files[0]] else files;
      assert part == [] + [];
    }
  }

  lemma {:induction false} AppendedReading(files: Files, batch: Batch, n: int)
    requires n >= 0
    ensures Reading(files[0 := ContentOf(files, 0) + [batch]], n) == Reading(files, n) + [batch]
  {
    if n > 0 { AppendedReading(files, batch, n - 1); }
  }

  lemma SuffixAppend(part: seq<Batch>, mid: seq<Batch>, whole: seq<Batch>, batch: Batch)
    requires SuffixOf(part, mid) && SuffixOf(mid, whole)
    ensures SuffixOf(part + [batch], whole + [batch])
  {
    assert whole == whole[..|whole| - |mid|] + mid && mid == mid[..|mid| - |part|] + part;
  }

  lemma FlushKeepsSuffix(opts: Options, w: World)
    requires opts.maxFiles >= 0 && SuffixOf(Reading(w.sink.files, opts.maxFiles), w.stream)
    ensures var next := AfterFlush(opts, w); SuffixOf(Reading(next.sink.files, opts.maxFiles), next.stream)
  {
    if w.sink.queue != [] {
      var before := w.sink.files;
      var full := w.sink.bytesWritten + Bytes(Payload(w.sink.queue)) > opts.maxBytes;
      var files := if full then Rotated(opts, before) else before;
      RotationDropsTheOldest(opts, before);
      assert SuffixOf(Reading(files, opts.maxFiles), Reading(before, opts.maxFiles));
      AppendedReading(files, w.sink.queue, opts.maxFiles);
      SuffixAppend(Reading(files, opts.maxFiles), Reading(before, opts.maxFiles), w.stream, w.sink.queue);
    }
  }

  /** Over every run, restarts included, reading the files from `.maxFiles` down to the base
      gives the latest flushed batches, whole and in order. */
  lemma {:induction false} FilesAreASuffix(opts: Options, states: seq<World>, steps: seq<Step>, k: nat)
    requires IsRun(opts, states, steps) && k <= |steps| && opts.maxFiles >= 0
    ensures SuffixOf(Reading(states[k].sink.files, opts.maxFiles), states[k].stream)
  {
    if k == 0 {
      EmptyReading(opts.maxFiles);
    } else {
      FilesAreASuffix(opts, states, steps, k - 1);
      var w := states[k - 1];
      assert states[k - 1 + 1] == Next(opts, w, steps[k - 1]);
      match steps[k - 1]
      case Write(line) => FlushKeepsSuffix(opts, w.(sink := Queued(opts, w.sink, line), written := w.written + [line]));
      case Tick => FlushKeepsSuffix(opts, w);
      case Restart =>
    }
  }

  lemma {:induction false} EmptyReading(n: int)
    ensures Reading(map[], n) == []
    decreases n
  {
    if n >= 0 { EmptyReading(n - 1); }
  }

  // ----- The files stay small -----

  /** Within the limit, or a single batch that is larger than it. */
  ghost predicate Small(opts: Options, batches: seq<Batch>) {
    Size(batches) <= opts.maxBytes || |batches| <= 1
  }

  ghost predicate Sized(opts: Options, s: Sink) {
    && s.bytesWritten == Size(ContentOf(s.files, 0))
    && (forall n :: 0 <= n <= opts.maxFiles ==> Small(opts, ContentOf(s.files, n)))
    && (forall n :: n in s.files ==> 0 <= n <= opts.maxFiles)
  }

  lemma RotatedStaysSized(opts: Options, s: Sink)
    requires opts.maxFiles >= 1 && Sized(opts, s)
    ensures Sized(opts, s.(files := Rotated(opts, s.files), bytesWritten := 0))
  {
    var r := Rotated(opts, s.files);
    forall n | 0 <= n <= opts.maxFiles ensures Small(opts, ContentOf(r, n)) {
      RotatedContents(opts, s.files, n);
      if n > 0 { assert Small(opts, ContentOf(s.files, n - 1)); }
    }
    forall n | n in r ensures 0 <= n <= opts.maxFiles {
      RotatedContents(opts, s.files, n);
    }
    RotatedContents(opts, s.files, 0);
  }

  lemma SizeAppend(base: seq<Batch>, batch: Batch)
    ensures Size(base + [batch]) == Size(base) + Bytes(Payload(batch))
  {
    assert (base + [batch])[..|base|] == base;
  }

  /** A batch goes where it fits, or into an empty base. */
  lemma AppendStaysSized(opts: Options, s: Sink, batch: Batch)
    requires Sized(opts, s) && opts.maxFiles >= 0
    requires ContentOf(s.files, 0) == [] || s.bytesWritten + Bytes(Payload(batch)) <= opts.maxBytes
    ensures Sized(opts, Sink(s.files[0 := ContentOf(s.files, 0) + [batch]],
                             s.bytesWritten + Bytes(Payload(batch)), [], 0))
  {
    var base := ContentOf(s.files, 0);
    var after := s.files[0 := base + [batch]];
    SizeAppend(base, batch);
    forall n | 0 <= n <= opts.maxFiles ensures Small(opts, ContentOf(after, n)) {
      if n > 0 { assert Small(opts, ContentOf(s.files, n)); }
    }
  }

  lemma FlushStaysSized(opts: Options, s: Sink)
    requires opts.maxFiles >= 1 && Sized(opts, s)
    ensures Sized(opts, Flushed(opts, s))
  {
    if s.queue != [] {
      if s.bytesWritten + Bytes(Payload(s.queue)) > opts.maxBytes {
        RotatedStaysSized(opts, s);
        RotatedContents(opts, s.files, 0);
        AppendStaysSized(opts, s.(files := Rotated(opts, s.files), bytesWritten := 0), s.queue);
      } else {
        AppendStaysSized(opts, s, s.queue);
      }
    }
  }

  /** Over every run the base and every rotated file stay within maxBytes unless one batch
      alone is larger, and no file beyond `.maxFiles` exists. */
  lemma {:induction false} FilesStaySmall(opts: Options, states: seq<World>, steps: seq<Step>, k: nat)
    requires IsRun(opts, states, steps) && k <= |steps| && opts.maxFiles >= 1
    ensures Sized(opts, states[k].sink)
  {
    if k > 0 {
      FilesStaySmall(opts, states, steps, k - 1);
      var w := states[k - 1];
      assert states[k - 1 + 1] == Next(opts, w, steps[k - 1]);
      match steps[k - 1]
      case Write(line) => FlushStaysSized(opts, Queued(opts, w.sink, line));
      case Tick => FlushStaysSized(opts, w.sink);
      case Restart =>
    }
  }

  // ----- Every line is accounted for -----

  function Flat(stream: seq<Batch>): seq<string> {
    if stream == [] then [] else Flat(stream[..|stream| - 1]) + stream[|stream| - 1]
  }

  /** `part` is `whole` with some lines left out. */
  ghost predicate Subsequence(part: seq<string>, whole: seq<string>) {
    if part == [] then true
    else if whole == [] then false
    else
      var p, w := |part| - 1, |whole| - 1;
      || (part[p] == whole[w] && Subsequence(part[..p], whole[..w]))
      || Subsequence(part, whole[..w])
  }

  lemma SubsequenceAppend(part: seq<string>, whole: seq<string>, line: string)
    requires Subsequence(part, whole)
    ensures Subsequence(part + [line], whole + [line])
  {
    assert (part + [line])[..|part|] == part && (whole + [line])[..|whole|] == whole;
  }

  lemma {:induction false} SubsequenceDrop(a: seq<string>, line: string, b: seq<string>, whole: seq<string>)
    requires Subsequence(a + [line] + b, whole)
    ensures Subsequence(a + b, whole)
    decreases |whole|
  {
    var part, p, w := a + [line] + b, |a| + |b|, |whole| - 1;
    if part[p] == whole[w] && Subsequence(part[..p], whole[..w]) {
      if b == [] {
        assert part[..p] == a && a + b == a;
        SubsequenceLonger(a, whole);
      } else {
        var c := b[..|b| - 1];
        assert part[..p] == a + [line] + c && (a + b)[..p - 1] == a + c;
        SubsequenceDrop(a, line, c, whole[..w]);
      }
    } else {
      SubsequenceDrop(a, line, b, whole[..w]);
      assert a + b != [] ==> Subsequence(a + b, whole);
    }
  }

  lemma SubsequenceLonger(part: seq<string>, whole: seq<string>)
    requires whole != [] && Subsequence(part, whole[..|whole| - 1])
    ensures Subsequence(part, whole)
  {
  }

  function Accounted(w: World): nat {
    |Flat(w.stream)| + |w.sink.queue| + w.sink.droppedLines + w.reported + w.lost
  }

  /** What was flushed and what is queued are written lines in the order of writing. */
  ghost predicate InOrder(w: World) {
    Subsequence(Flat(w.stream) + w.sink.queue, w.written)
  }

  lemma FlatAppend(stream: seq<Batch>, batch: Batch)
    ensures Flat(stream + [batch]) == Flat(stream) + batch
  {
    assert (stream + [batch])[..|stream|] == stream;
  }

  lemma FlushAccounts(opts: Options, w: World)
    ensures var next := AfterFlush(opts, w);
            Accounted(next) == Accounted(w) && (InOrder(w) ==> InOrder(next)) && next.written == w.written
  {
    if w.sink.queue != [] {
      FlatAppend(w.stream, w.sink.queue);
      assert Flat(w.stream) + w.sink.queue + [] == Flat(w.stream) + w.sink.queue;
    }
  }

  lemma QueueAccounts(opts: Options, w: World, line: string)
    requires InOrder(w)
    ensures var next := w.(sink := Queued(opts, w.sink, line), written := w.written + [line]);
            && InOrder(next)
            && Accounted(next) ==
               Accounted(w) + (if |w.sink.queue| >= opts.maxQueueLines && w.sink.queue == [] then 2 else 1)
  {
    var flat, queue := Flat(w.stream), w.sink.queue;
    if |queue| >= opts.maxQueueLines && queue != [] {
      assert flat + queue == flat + [queue[0]] + queue[1..];
      SubsequenceDrop(flat, queue[0], queue[1..], w.written);
      SubsequenceAppend(flat + queue[1..], w.written, line);
      assert flat + queue[1..] + [line] == flat + (queue[1..] + [line]);
    } else {
      SubsequenceAppend(flat + queue, w.written, line);
      assert flat + queue + [line] == flat + (queue + [line]);
    }
  }

  lemma {:induction false} SubsequencePrefix(a: seq<string>, b: seq<string>, whole: seq<string>)
    requires Subsequence(a + b, whole)
    ensures Subsequence(a, whole)
    decreases |b|
  {
    if b == [] {
      assert a + b == a;
    } else {
      var last := |b| - 1;
      assert a + b == (a + b[..last]) + [b[last]] + [] && (a + b[..last]) + [] == a + b[..last];
      SubsequenceDrop(a + b[..last], b[last], [], whole);
      SubsequencePrefix(a, b[..last], whole);
    }
  }

  /** A queue that can hold a line: every line written is flushed, queued, counted as
      dropped or left behind by a restart, once. One that cannot: never again exact. */
  ghost predicate Balanced(opts: Options, w: World) {
    && InOrder(w)
    && (opts.maxQueueLines >= 1 || w.written == [] ==> Accounted(w) == |w.written|)
    && (opts.maxQueueLines < 1 && w.written != [] ==> Accounted(w) > |w.written|)
  }

  lemma NextBalances(opts: Options, w: World, step: Step)
    requires Balanced(opts, w)
    requires w.written == [] ==> w.sink.queue == []
    ensures Balanced(opts, Next(opts, w, step))
    ensures Next(opts, w, step).written == [] ==> Next(opts, w, step).sink.queue == []
  {
    match step
    case Write(line) =>
      QueueAccounts(opts, w, line);
      FlushAccounts(opts, w.(sink := Queued(opts, w.sink, line), written := w.written + [line]));
    case Tick => FlushAccounts(opts, w);
    case Restart =>
      SubsequencePrefix(Flat(w.stream), w.sink.queue, w.written);
      assert Flat(w.stream) + [] == Flat(w.stream);
  }

  lemma {:induction false} RunBalances(opts: Options, states: seq<World>, steps: seq<Step>, k: nat)
    requires IsRun(opts, states, steps) && k <= |steps|
    ensures Balanced(opts, states[k]) && (states[k].written == [] ==> states[k].sink.queue == [])
  {
    if k > 0 {
      RunBalances(opts, states, steps, k - 1);
      assert states[k - 1 + 1] == Next(opts, states[k - 1], steps[k - 1]);
      NextBalances(opts, states[k - 1], steps[k - 1]);
    }
  }

  /** The count of the lines is exact in every reachable state if and only if the queue can
      hold a line (or nothing was written). */
  lemma EveryLineIsAccounted(opts: Options, states: seq<World>, steps: seq<Step>, k: nat)
    requires IsRun(opts, states, steps) && k <= |steps|
    ensures InOrder(states[k])
    ensures Accounted(states[k]) == |states[k].written| <==> opts.maxQueueLines >= 1 || states[k].written == []
  {
    RunBalances(opts, states, steps, k);
  }
}
