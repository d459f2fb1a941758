/** What the window loop itself guarantees: coverage, progress, cancellation, cost. */
module ChunkWindows {
  import opened Wrappers
  import opened Stt
  import opened ChunkRecursion
  import opened Chunker

  predicate InWindow(total: nat, i: nat, k: nat) {
    WindowStart(k) <= i < WindowEnd(total, k)
  }

  /** Every sample lies in the window that starts last before it, and besides that
      one at most in the window just before. */
  lemma EverySampleInOneOrTwoWindows(total: nat, i: nat)
    requires i < total
    ensures i / STEP_SAMPLES < WindowCount(total) && InWindow(total, i, i / STEP_SAMPLES)
    ensures forall k: nat :: InWindow(total, i, k) ==> k == i / STEP_SAMPLES || k + 1 == i / STEP_SAMPLES
  {
    var q := i / STEP_SAMPLES;
    WindowCountIsTotalChunks(total);
    assert WindowStart(q) <= i < WindowStart(q) + STEP_SAMPLES;
    forall k: nat | InWindow(total, i, k) ensures k == q || k + 1 == q {
      assert k * STEP_SAMPLES <= i < (q + 1) * STEP_SAMPLES;
      assert q * STEP_SAMPLES <= i < k * STEP_SAMPLES + WINDOW_SAMPLES;
      assert (q - k) * STEP_SAMPLES < WINDOW_SAMPLES < 2 * STEP_SAMPLES;
    }
  }

  /** The progress reports 1/n, 2/n, ..., once each and in order. */
  predicate CountsUp(progress: seq<ChunkProgress>, n: nat) {
    forall i :: 0 <= i < |progress| ==>
                  progress[i] == ChunkProgress(i + 1, n, Seconds(WindowStart(i)))
  }

  function ProgressOf(st: Scan): seq<ChunkProgress> {
    match st
    case Going(_, progress, _) => progress
    case Halted(run) => run.progress
  }

  function CallsOf(st: Scan): nat {
    match st
    case Going(_, _, calls) => calls
    case Halted(run) => run.calls
  }

  predicate Reported(st: Scan, j: nat, n: nat) {
    && CountsUp(ProgressOf(st), n)
    && (st.Going? ==> |ProgressOf(st)| == j)
    && (st.Halted? ==> |ProgressOf(st)| < j && !st.run.outcome.Finished?)
  }

  lemma ProgressCountsUp(t: Task, k: nat)
    requires k <= WindowCount(|t.audio|)
    ensures Reported(Scanned(t, k), k, WindowCount(|t.audio|))
  {
    ScanInvariant(t, k, (st: Scan, j: nat) => Reported(st, j, WindowCount(|t.audio|)));
  }

  /** A windowed run reports i/n for consecutive i from 1, with n the precomputed
      total; a run that finishes reports all of them, one for each window. */
  lemma WindowedProgress(t: Task)
    ensures CountsUp(Windowed(t).progress, TotalChunks(|t.audio|))
    ensures Windowed(t).outcome.Finished? ==> |Windowed(t).progress| == TotalChunks(|t.audio|)
    ensures !Windowed(t).outcome.Finished? ==> |Windowed(t).progress| < TotalChunks(|t.audio|)
  {
    var n := WindowCount(|t.audio|);
    WindowCountIsTotalChunks(|t.audio|);
    ProgressCountsUp(t, n);
  }

  /** Once the cancel flag is seen at the start of window `k` and the windows before
      it went through, the run is cancelled there: `k` progress events, and not one
      adapter call beyond those of the first `k` windows. */
  lemma CancelStopsAtBoundary(t: Task, k: nat)
    requires k < WindowCount(|t.audio|) && Scanned(t, k).Going? && t.cancelled(k)
    ensures Windowed(t).outcome == Cancelled(t.jobId)
    ensures Windowed(t).calls == Scanned(t, k).calls
    ensures |Windowed(t).progress| == k
  {
    NextWindow(t, k);
    ProgressCountsUp(t, k);
  }

  /** No window starts after the flag is set: a run whose flag is up from window
      `k` on reports at most `k` windows and never finishes. */
  lemma {:induction false} CancelledRunNeverFinishes(t: Task, k: nat)
    requires k < WindowCount(|t.audio|) && t.cancelled(k)
    ensures !Windowed(t).outcome.Finished?
    ensures |Windowed(t).progress| <= k
  {
    var n := WindowCount(|t.audio|);
    if Scanned(t, k).Going? {
      CancelStopsAtBoundary(t, k);
    } else {
      HaltedStays(t, k, n);
      ProgressCountsUp(t, k);
    }
  }

  lemma WindowSeconds(t: Task, k: nat)
    requires WindowStart(k) < |t.audio|
    ensures 0 < |Window(t.audio, k)| <= WINDOW_SAMPLES
    ensures Seconds(|Window(t.audio, k)|) <= 900.0
    ensures Tracks(Seconds(|Window(t.audio, k)|), |Window(t.audio, k)|)
  {
  }

  lemma WindowCost(t: Task, st: Scan, k: nat)
    requires st.Going? && WindowStart(k) < |t.audio|
    ensures CallsOf(ScanWindow(t, st, k)) <= st.calls + 31
  {
    WindowSeconds(t, k);
    WindowCallsBounded(t.a, st.calls, Window(t.audio, k), t.lang, Seconds(|Window(t.audio, k)|));
  }

  lemma ScanCost(t: Task, k: nat)
    requires k <= WindowCount(|t.audio|)
    ensures CallsOf(Scanned(t, k)) <= 31 * k
  {
    var inv := (st: Scan, j: nat) => CallsOf(st) <= 31 * j;
    forall st: Scan, j: nat | WindowStart(j) < |t.audio| && inv(st, j)
      ensures inv(if st.Halted? then st else ScanWindow(t, st, j), j + 1)
    {
      if st.Going? {
        WindowCost(t, st, j);
      }
    }
    ScanInvariant(t, k, inv);
  }

  /** Whatever fails and however it ends, a file costs at most 31 calls a window. */
  lemma FileCallsBounded(t: Task, detect: seq<Sample> -> Result<string, Failure>)
    ensures Transcription(t, detect).calls <= 31 * TotalChunks(|t.audio|) || Short(t.audio)
    ensures Short(t.audio) ==> Transcription(t, detect).calls <= 1
  {
    WindowCountIsTotalChunks(|t.audio|);
    if !Short(t.audio) {
      var lang := if t.lang.Some? then t.lang
                  else match detect(t.audio[..SAMPLE_RATE * 30]) case Err(_) => None case Ok(l) => Some(l);
      ScanCost(t.(lang := lang), WindowCount(|t.audio|));
    }
  }

  lemma WindowSucceeds(t: Task, st: Scan, k: nat)
    requires st.Going? && WindowStart(k) < |t.audio|
    requires OnlyRunsOutAbove(t.a, FLOOR_SAMPLES) && !t.cancelled(k)
    ensures ScanWindow(t, st, k).Going?
  {
    WindowSeconds(t, k);
    ShortSlicesSuffice(t.a, st.calls, Window(t.audio, k), t.lang, Seconds(|Window(t.audio, k)|));
  }

  /** With an adapter that can always take 60 s and no cancel, a long file is
      transcribed, whatever runs out of memory on the way. */
  lemma ScanSucceeds(t: Task, k: nat)
    requires k <= WindowCount(|t.audio|)
    requires OnlyRunsOutAbove(t.a, FLOOR_SAMPLES)
    requires forall j: nat :: !t.cancelled(j)
    ensures Scanned(t, k).Going?
  {
    var inv := (st: Scan, j: nat) => st.Going?;
    forall st: Scan, j: nat | WindowStart(j) < |t.audio| && inv(st, j)
      ensures inv(if st.Halted? then st else ScanWindow(t, st, j), j + 1)
    {
      WindowSucceeds(t, st, j);
    }
    ScanInvariant(t, k, inv);
  }

  /** The flag is up at the start of window `k`, and the loop gets there. */
  predicate MeetsFlagAt(t: Task, k: nat) {
    k < WindowCount(|t.audio|) && t.cancelled(k) && Scanned(t, k).Going?
  }

  predicate CancelledBy(t: Task, n: nat)
    requires n <= WindowCount(|t.audio|)
  {
    Scanned(t, n).Halted? && Scanned(t, n).run.outcome.Cancelled?
  }

  lemma OneWindowCancels(t: Task, k: nat)
    requires k < WindowCount(|t.audio|)
    ensures CancelledBy(t, k + 1) <==> CancelledBy(t, k) || MeetsFlagAt(t, k)
  {
  }

  lemma {:induction false} ScanSeesCancel(t: Task, n: nat)
    requires n <= WindowCount(|t.audio|)
    ensures CancelledBy(t, n) <==> exists k: nat :: k < n && MeetsFlagAt(t, k)
    decreases n
  {
    if n != 0 {
      ScanSeesCancel(t, n - 1);
      OneWindowCancels(t, n - 1);
    }
  }

  /** The flag is up at the start of some window that the loop reaches. */
  ghost predicate WindowsMeetFlag(t: Task) {
    exists k: nat :: MeetsFlagAt(t, k)
  }

  /** The window loop ends cancelled exactly then. */
  lemma WindowsCancelledIff(t: Task)
    ensures Windowed(t).outcome.Cancelled? <==> WindowsMeetFlag(t)
  {
    ScanSeesCancel(t, WindowCount(|t.audio|));
  }

  /** The flag is up at one of the places where the transcriber looks at it. */
  ghost predicate MeetsFlag(t: Task, detect: seq<Sample> -> Result<string, Failure>) {
    if Short(t.audio) then t.cancelled(0)
    else if t.lang.Some? then WindowsMeetFlag(t)
    else
      var found := detect(t.audio[..SAMPLE_RATE * 30]);
      found.Ok? && WindowsMeetFlag(t.(lang := Some(found.value)))
  }

  /** A file of any length is cancelled exactly when the transcriber meets the raised flag. */
  lemma TranscriptionCancelledIff(t: Task, detect: seq<Sample> -> Result<string, Failure>)
    ensures Transcription(t, detect).outcome.Cancelled? <==> MeetsFlag(t, detect)
  {
    if !Short(t.audio) {
      if t.lang.Some? {
        WindowsCancelledIff(t);
      } else {
        var found := detect(t.audio[..SAMPLE_RATE * 30]);
        if found.Ok? {
          WindowsCancelledIff(t.(lang := Some(found.value)));
        }
      }
    }
  }

  /** Without the flag no path of the transcriber ends cancelled. */
  lemma OnlyTheFlagCancels(t: Task, detect: seq<Sample> -> Result<string, Failure>)
    requires forall k: nat :: !t.cancelled(k)
    ensures !Transcription(t, detect).outcome.Cancelled?
  {
    TranscriptionCancelledIff(t, detect);
  }

  /** The windows in samples: every 870 s one begins, 900 s long or up to the end of the
      audio, and there are as many as begin before that end. */
  lemma WindowsInSamples(total: nat, k: nat)
    ensures WindowStart(k) == k * 13_920_000
    ensures k < WindowCount(total) <==> k * 13_920_000 < total
    ensures WindowEnd(total, k) == if k * 13_920_000 + 14_400_000 <= total then k * 13_920_000 + 14_400_000 else total
  {
    WindowCountIsTotalChunks(total);
  }
}
