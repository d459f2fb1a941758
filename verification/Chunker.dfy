/** `transcribe_file`: one call for audio up to 30 minutes, otherwise overlapping
    windows whose segments are stitched into one transcript. */
module Chunker {
  import opened Wrappers
  import opened Stt
  import opened ChunkRecursion

  const WINDOW_SECONDS := 900
  const OVERLAP_SECONDS := 30
  const SINGLE_CALL_THRESHOLD_SECONDS := 1800
  const STEP_SECONDS := WINDOW_SECONDS - OVERLAP_SECONDS
  const WINDOW_SAMPLES := WINDOW_SECONDS * SAMPLE_RATE
  const STEP_SAMPLES := STEP_SECONDS * SAMPLE_RATE

  datatype Outcome = Finished(transcript: Transcript) | Cancelled(jobId: string) | Failed(failure: Failure)

  /** What a call of `transcribe_file` did: its outcome, the progress events it
      reported and how often it called the adapter. */
  datatype FileRun = FileRun(outcome: Outcome, progress: seq<ChunkProgress>, calls: nat)

  // ---------------------------------------------------------------- windows

  function Ceil(x: real): int {
    -((-x).Floor)
  }

  /** `math.ceil(total_seconds / step_seconds)` */
  function TotalChunks(total: nat): int {
    Ceil(Seconds(total) / STEP_SECONDS as real)
  }

  /** How many multiples of the step lie before the end of the audio. */
  function WindowCount(total: nat): nat {
    (total + STEP_SAMPLES - 1) / STEP_SAMPLES
  }

  function WindowStart(k: nat): nat {
    k * STEP_SAMPLES
  }

  function WindowEnd(total: nat, k: nat): nat {
    if WindowStart(k) + WINDOW_SAMPLES <= total then WindowStart(k) + WINDOW_SAMPLES else total
  }

  /** The absolute end of the window before window `k`. */
  function PrevEnd(total: nat, k: nat): real {
    if k == 0 then 0.0 else Seconds(WindowEnd(total, k - 1))
  }

  function Window(audio: seq<Sample>, k: nat): seq<Sample>
    requires WindowStart(k) < |audio|
  {
    audio[WindowStart(k)..WindowEnd(|audio|, k)]
  }

  /** Before the end there are exactly `total_chunks` window starts. */
  lemma WindowCountIsTotalChunks(total: nat)
    ensures TotalChunks(total) == WindowCount(total)
    ensures forall k: nat :: WindowStart(k) < total <==> k < WindowCount(total)
  {
    var n := WindowCount(total);
    var x := Seconds(total) / STEP_SECONDS as real;
    assert x == total as real / STEP_SAMPLES as real;
    assert (n - 1) * STEP_SAMPLES < total <= n * STEP_SAMPLES;
    assert (n - 1) as real < x <= n as real;
  }

  // ---------------------------------------------------------------- stitching

  /** A segment of a window in absolute time. */
  function Place(s: SttSegment, chunkStart: real): TranscriptSegment {
    TranscriptSegment(s.startS + chunkStart, s.endS + chunkStart, s.text, None, s.confidence)
  }

  /** The segments of a window that do not begin before the previous window's end. */
  function Kept(segs: seq<SttSegment>, chunkStart: real, prevEnd: real): seq<TranscriptSegment> {
    if segs == [] then []
    else
      var last := segs[|segs| - 1];
      Kept(segs[..|segs| - 1], chunkStart, prevEnd)
      + if last.startS + chunkStart < prevEnd then [] else [Place(last, chunkStart)]
  }

  /** The stitching so far, or how it ended early. */
  datatype Scan =
    | Going(merged: seq<TranscriptSegment>, progress: seq<ChunkProgress>, calls: nat)
    | Halted(run: FileRun)

  /** Everything one windowed transcription depends on; `cancelled(k)` is what the
      cancel flag says when window `k` is about to start. */
  datatype Task = Task(a: Adapter, audio: seq<Sample>, lang: Option<string>, jobId: string, cancelled: nat -> bool)

  function ScanWindow(t: Task, st: Scan, k: nat): Scan
    requires st.Going? && WindowStart(k) < |t.audio|
  {
    if t.cancelled(k) then Halted(FileRun(Cancelled(t.jobId), st.progress, st.calls))
    else
      var chunk := Window(t.audio, k);
      var run := TranscribeChunk(t.a, st.calls, chunk, t.lang, Seconds(|chunk|));
      if run.reply.Raise? then Halted(FileRun(Failed(run.reply.failure), st.progress, run.next))
      else
        var start := Seconds(WindowStart(k));
        Going(st.merged + Kept(run.reply.stt.segments, start, PrevEnd(|t.audio|, k)),
              st.progress + [ChunkProgress(k + 1, WindowCount(|t.audio|), start)],
              run.next)
  }

  /** The first `k` windows, in order. */
  function Scanned(t: Task, k: nat): Scan
    requires k <= WindowCount(|t.audio|)
  {
    if k == 0 then Going([], [], 0)
    else
      var st := Scanned(t, k - 1);
      if st.Halted? then st
      else
        assert WindowStart(k - 1) < |t.audio| by { WindowCountIsTotalChunks(|t.audio|); }
        ScanWindow(t, st, k - 1)
  }

  function Windowed(t: Task): FileRun {
    match Scanned(t, WindowCount(|t.audio|))
    case Halted(run) => run
    case Going(merged, progress, calls) =>
      FileRun(Finished(Transcript(t.jobId, t.lang, Some(Seconds(|t.audio|)), merged)), progress, calls)
  }

  function SingleCall(t: Task): FileRun {
    if t.cancelled(0) then FileRun(Cancelled(t.jobId), [], 0)
    else
      match t.a(0, Request(t.audio, t.lang, true))
      case Raise(f) => FileRun(Failed(f), [], 1)
      case Text(stt) =>
        var lang := if t.lang.None? then Some(stt.language) else t.lang;
        var segments := seq(|stt.segments|, i requires 0 <= i < |stt.segments| => Place(stt.segments[i], 0.0));
        FileRun(Finished(Transcript(t.jobId, lang, Some(Seconds(|t.audio|)), segments)),
                [ChunkProgress(1, 1, 0.0)], 1)
  }

  predicate Short(audio: seq<Sample>) {
    Seconds(|audio|) <= SINGLE_CALL_THRESHOLD_SECONDS as real
  }

  /** What `transcribe_file` computes; `detect` is the language detection on the
      first 30 seconds, used by the windowed path when no language was asked for. */
  function Transcription(t: Task, detect: seq<Sample> -> Result<string, Failure>): FileRun {
    if Short(t.audio) then SingleCall(t)
    else if t.lang.Some? then Windowed(t)
    else
      match detect(t.audio[..SAMPLE_RATE * 30])
      case Err(f) => FileRun(Failed(f), [], 0)
      case Ok(lang) => Windowed(t.(lang := Some(lang)))
  }

  lemma KeptOneMore(segs: seq<SttSegment>, i: nat, chunkStart: real, prevEnd: real)
    requires i < |segs|
    ensures Kept(segs[..i + 1], chunkStart, prevEnd)
            == Kept(segs[..i], chunkStart, prevEnd)
               + if segs[i].startS + chunkStart < prevEnd then [] else [Place(segs[i], chunkStart)]
  {
    assert segs[..i + 1][..i] == segs[..i];
  }

  /** The overlap dedupe of one window, segment by segment. */
  method AppendKept(segs: seq<SttSegment>, chunkStart: real, prevEnd: real, merged: seq<TranscriptSegment>)
    returns (r: seq<TranscriptSegment>)
    ensures r == merged + Kept(segs, chunkStart, prevEnd)
  {
    r := merged;
    for i := 0 to |segs|
      invariant r == merged + Kept(segs[..i], chunkStart, prevEnd)
    {
      KeptOneMore(segs, i, chunkStart, prevEnd);
      var s := segs[i];
      if !(s.startS + chunkStart < prevEnd) {
        r := r + [Place(s, chunkStart)];
      }
    }
    assert segs[..|segs|] == segs;
  }

  /** One more window: either the scan goes on, or its end is the whole run. */
  lemma NextWindow(t: Task, k: nat)
    requires k < WindowCount(|t.audio|) && Scanned(t, k).Going?
    ensures WindowStart(k) < |t.audio|
    ensures Scanned(t, k + 1) == ScanWindow(t, Scanned(t, k), k)
    ensures Scanned(t, k + 1).Halted? ==> Windowed(t) == Scanned(t, k + 1).run
  {
    WindowCountIsTotalChunks(|t.audio|);
    if Scanned(t, k + 1).Halted? {
      HaltedStays(t, k + 1, WindowCount(|t.audio|));
    }
  }

  /** The window loop. */
  method TranscribeWindows(t: Task) returns (run: FileRun)
    ensures run == Windowed(t)
  {
    var total := |t.audio|;
    var totalChunks := TotalChunks(total);
    WindowCountIsTotalChunks(total);
    var merged: seq<TranscriptSegment> := [];
    var progress: seq<ChunkProgress> := [];
    var calls, chunkCount, startSample := 0, 0, 0;
    var prevChunkEnd := 0.0;
    while startSample < total
      invariant chunkCount <= WindowCount(total) && startSample == WindowStart(chunkCount)
      invariant Scanned(t, chunkCount) == Going(merged, progress, calls)
      invariant prevChunkEnd == PrevEnd(total, chunkCount)
      decreases total - startSample
    {
      NextWindow(t, chunkCount);
      if t.cancelled(chunkCount) {
        return FileRun(Cancelled(t.jobId), progress, calls);
      }
      var chunk := Window(t.audio, chunkCount);
      var chunkSeconds := Seconds(|chunk|);
      var chunkStart := Seconds(startSample);
      var stt := TranscribeChunk(t.a, calls, chunk, t.lang, chunkSeconds);
      calls := stt.next;
      if stt.reply.Raise? {
        return FileRun(Failed(stt.reply.failure), progress, calls);
      }
      merged := AppendKept(stt.reply.stt.segments, chunkStart, prevChunkEnd, merged);
      prevChunkEnd := chunkStart + chunkSeconds;
      startSample := startSample + STEP_SAMPLES;
      chunkCount := chunkCount + 1;
      progress := progress + [ChunkProgress(chunkCount, totalChunks, chunkStart)];
    }
    run := FileRun(Finished(Transcript(t.jobId, t.lang, Some(Seconds(total)), merged)), progress, calls);
  }

  method TranscribeFile(t: Task, detect: seq<Sample> -> Result<string, Failure>) returns (run: FileRun)
    ensures run == Transcription(t, detect)
  {
    if Short(t.audio) {
      return SingleCall(t);
    }
    var lang := t.lang;
    if lang.None? {
      var detected := detect(t.audio[..SAMPLE_RATE * 30]);
      if detected.Err? {
        return FileRun(Failed(detected.error), [], 0);
      }
      lang := Some(detected.value);
    }
    run := TranscribeWindows(t.(lang := lang));
  }

  lemma {:induction false} HaltedStays(t: Task, j: nat, k: nat)
    requires j <= k <= WindowCount(|t.audio|) && Scanned(t, j).Halted?
    ensures Scanned(t, k) == Scanned(t, j)
  {
    if j < k {
      HaltedStays(t, j, k - 1);
    }
  }

  /** Induction over the windows: `inv` holds of every scan if every window, and
      every halt, carries it on. */
  lemma {:induction false} ScanInvariant(t: Task, k: nat, inv: (Scan, nat) -> bool)
    requires k <= WindowCount(|t.audio|)
    requires inv(Going([], [], 0), 0)
    requires forall st: Scan, j: nat | WindowStart(j) < |t.audio| && inv(st, j) ::
               inv(if st.Halted? then st else ScanWindow(t, st, j), j + 1)
    ensures inv(Scanned(t, k), k)
  {
    if k != 0 {
      ScanInvariant(t, k - 1, inv);
      WindowCountIsTotalChunks(|t.audio|);
      assert WindowStart(k - 1) < |t.audio| && inv(Scanned(t, k - 1), k - 1);
    }
  }
}
