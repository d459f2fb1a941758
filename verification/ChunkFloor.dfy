/** The 60 s floor: exactly which chunks and files an adapter gets through that runs out
    of memory only on slices of 60 s or more. */
module ChunkFloor {
  import opened Wrappers
  import opened Stt
  import opened ChunkRecursion
  import opened Chunker
  import opened ChunkWindows

  /** After `d` halvings `chunk_s` is below the floor by less than one sample. */
  predicate Slips(chunkS: real, d: nat) {
    && (FLOOR_SAMPLES - 1) as real * Pow2(d) as real < chunkS * SAMPLE_RATE as real
    && chunkS * SAMPLE_RATE as real < FLOOR_SAMPLES as real * Pow2(d) as real
  }

  lemma SlipsHalf(chunkS: real, d: nat)
    ensures Slips(chunkS, d + 1) <==> Slips(chunkS / 2.0, d)
  {
    assert Pow2(d + 1) == 2 * Pow2(d);
  }

  lemma {:induction false} SurvivesUnlessItSlips(a: Adapter, n: nat, audio: seq<Sample>, lang: Option<string>,
                                                 chunkS: real)
    requires OnlyRunsOutAbove(a, FLOOR_SAMPLES - 1)
    requires Tracks(chunkS, |audio|) && forall d: nat :: !Slips(chunkS, d)
    ensures TranscribeChunk(a, n, audio, lang, chunkS).reply.Text?
    decreases Fuel(chunkS)
  {
    if MustSplit(a(n, SplitRequest(audio, lang)), chunkS) {
      var mid := |audio| / 2;
      var left := TranscribeChunk(a, n + 1, audio[..mid], lang, chunkS / 2.0);
      TracksHalves(chunkS, |audio|);
      var half := chunkS / 2.0;
      forall d: nat ensures !Slips(half, d) {
        SlipsHalf(chunkS, d);
      }
      SurvivesUnlessItSlips(a, n + 1, audio[..mid], lang, chunkS / 2.0);
      SurvivesUnlessItSlips(a, left.next, audio[mid..], lang, chunkS / 2.0);
    } else {
      assert RunsOutAbove(a(n, SplitRequest(audio, lang)), |audio|, FLOOR_SAMPLES - 1);
      assert !Slips(chunkS, 0) && Pow2(0) == 1;
    }
  }

  lemma {:induction false} HogFailsIfItSlips(n: nat, audio: seq<Sample>, lang: Option<string>, chunkS: real, d: nat,
                                             run: ChunkRun)
    requires Slips(chunkS, d) && chunkS * SAMPLE_RATE as real <= |audio| as real
    requires run == TranscribeChunk(MemoryHog(FLOOR_SAMPLES - 1), n, audio, lang, chunkS)
    ensures run.reply.Raise?
    decreases d
  {
    var hog := MemoryHog(FLOOR_SAMPLES - 1);
    MemoryHogRunsOut(FLOOR_SAMPLES - 1);
    assert |audio| > FLOOR_SAMPLES - 1;
    if d != 0 && run.reply.Text? {
      var mid := |audio| / 2;
      var left := TranscribeChunk(hog, n + 1, audio[..mid], lang, chunkS / 2.0);
      var right := TranscribeChunk(hog, left.next, audio[mid..], lang, chunkS / 2.0);
      SplitRun(hog, n, audio, lang, chunkS, mid, left, right);
      SlipsHalf(chunkS, d - 1);
      HogFailsIfItSlips(left.next, audio[mid..], lang, chunkS / 2.0, d - 1, right);
    }
  }

  /** The lengths within one sample per slice of a power of two times 60 s. */
  predicate JustBelow(len: nat, d: nat) {
    (FLOOR_SAMPLES - 1) * Pow2(d) < len < FLOOR_SAMPLES * Pow2(d)
  }

  ghost predicate Awkward(len: nat) {
    exists d: nat :: JustBelow(len, d)
  }

  lemma SlipsIffJustBelow(len: nat, d: nat)
    ensures Slips(Seconds(len), d) <==> JustBelow(len, d)
  {
    assert Seconds(len) * SAMPLE_RATE as real == len as real;
    assert ((FLOOR_SAMPLES - 1) * Pow2(d)) as real == (FLOOR_SAMPLES - 1) as real * Pow2(d) as real;
    assert (FLOOR_SAMPLES * Pow2(d)) as real == FLOOR_SAMPLES as real * Pow2(d) as real;
  }

  /** Exactly then: every adapter that runs out of memory only on slices of 60 s or
      more gets a chunk of this length through, unless the length is awkward. */
  lemma SixtySecondsSufficeIffNotAwkward(audio: seq<Sample>, lang: Option<string>)
    ensures (forall a: Adapter, n: nat | OnlyRunsOutAbove(a, FLOOR_SAMPLES - 1) ::
               TranscribeChunk(a, n, audio, lang, Seconds(|audio|)).reply.Text?)
            <==> !Awkward(|audio|)
  {
    var chunkS := Seconds(|audio|);
    if Awkward(|audio|) {
      var d: nat :| JustBelow(|audio|, d);
      SlipsIffJustBelow(|audio|, d);
      HogFailsIfItSlips(0, audio, lang, chunkS, d,
                        TranscribeChunk(MemoryHog(FLOOR_SAMPLES - 1), 0, audio, lang, chunkS));
      MemoryHogRunsOut(FLOOR_SAMPLES - 1);
    } else {
      forall d: nat ensures !Slips(chunkS, d) {
        SlipsIffJustBelow(|audio|, d);
      }
      forall a: Adapter, n: nat | OnlyRunsOutAbove(a, FLOOR_SAMPLES - 1)
        ensures TranscribeChunk(a, n, audio, lang, chunkS).reply.Text?
      {
        SurvivesUnlessItSlips(a, n, audio, lang, chunkS);
      }
    }
  }

  // ---------------------------------------------------------------- whole files

  function Uncancelled(a: Adapter, audio: seq<Sample>, lang: Option<string>): Task {
    Task(a, audio, lang, "", (k: nat) => false)
  }

  ghost predicate AwkwardWindow(total: nat, k: nat) {
    WindowStart(k) < total && Awkward(WindowEnd(total, k) - WindowStart(k))
  }

  /** A full window is never awkward, so only the windows at the end of a file can be. */
  lemma FullWindowsAreNotAwkward()
    ensures !Awkward(WINDOW_SAMPLES)
  {
    forall d: nat ensures !JustBelow(WINDOW_SAMPLES, d) {
      assert Pow2(3) == 8 && Pow2(4) == 16;
      if d <= 3 {
        Pow2Rises(d, 3);
      } else {
        Pow2Rises(4, d);
      }
    }
  }

  lemma {:induction false} Pow2Rises(c: nat, d: nat)
    requires c <= d
    ensures Pow2(c) <= Pow2(d)
  {
    if c < d {
      Pow2Rises(c, d - 1);
    }
  }

  lemma SmoothWindowSucceeds(t: Task, st: Scan, k: nat)
    requires st.Going? && WindowStart(k) < |t.audio| && !t.cancelled(k)
    requires OnlyRunsOutAbove(t.a, FLOOR_SAMPLES - 1) && !AwkwardWindow(|t.audio|, k)
    ensures ScanWindow(t, st, k).Going?
  {
    var chunk := Window(t.audio, k);
    forall d: nat ensures !Slips(Seconds(|chunk|), d) {
      SlipsIffJustBelow(|chunk|, d);
    }
    SurvivesUnlessItSlips(t.a, st.calls, chunk, t.lang, Seconds(|chunk|));
  }

  lemma SmoothScanSucceeds(t: Task, k: nat)
    requires k <= WindowCount(|t.audio|) && OnlyRunsOutAbove(t.a, FLOOR_SAMPLES - 1)
    requires forall j: nat :: !t.cancelled(j) && !AwkwardWindow(|t.audio|, j)
    ensures Scanned(t, k).Going?
  {
    var inv := (st: Scan, j: nat) => st.Going?;
    forall st: Scan, j: nat | WindowStart(j) < |t.audio| && inv(st, j)
      ensures inv(if st.Halted? then st else ScanWindow(t, st, j), j + 1)
    {
      SmoothWindowSucceeds(t, st, j);
    }
    ScanInvariant(t, k, inv);
  }

  lemma AwkwardWindowFails(t: Task, st: Scan, k: nat)
    requires st.Going? && t.a == MemoryHog(FLOOR_SAMPLES - 1) && AwkwardWindow(|t.audio|, k)
    ensures ScanWindow(t, st, k).Halted?
  {
    var chunk := Window(t.audio, k);
    var d: nat :| JustBelow(|chunk|, d);
    SlipsIffJustBelow(|chunk|, d);
    HogFailsIfItSlips(st.calls, chunk, t.lang, Seconds(|chunk|), d,
                      TranscribeChunk(t.a, st.calls, chunk, t.lang, Seconds(|chunk|)));
  }

  lemma AwkwardFileFails(t: Task, k: nat)
    requires t.a == MemoryHog(FLOOR_SAMPLES - 1) && AwkwardWindow(|t.audio|, k)
    ensures !Windowed(t).outcome.Finished?
  {
    WindowCountIsTotalChunks(|t.audio|);
    if Scanned(t, k).Going? {
      NextWindow(t, k);
      AwkwardWindowFails(t, Scanned(t, k), k);
      ProgressCountsUp(t, k + 1);
    } else {
      ProgressCountsUp(t, k);
      HaltedStays(t, k, WindowCount(|t.audio|));
    }
  }

  /** The same for a file of more than 30 minutes: every such adapter gets the file
      through unless one of its windows has an awkward length. */
  lemma FileSurvivesIffNoAwkwardWindow(audio: seq<Sample>, lang: Option<string>)
    ensures (forall a: Adapter | OnlyRunsOutAbove(a, FLOOR_SAMPLES - 1) ::
               Windowed(Uncancelled(a, audio, lang)).outcome.Finished?)
            <==> forall k: nat :: !AwkwardWindow(|audio|, k)
  {
    if k: nat :| AwkwardWindow(|audio|, k) {
      MemoryHogRunsOut(FLOOR_SAMPLES - 1);
      AwkwardFileFails(Uncancelled(MemoryHog(FLOOR_SAMPLES - 1), audio, lang), k);
    } else {
      forall a: Adapter | OnlyRunsOutAbove(a, FLOOR_SAMPLES - 1)
        ensures Windowed(Uncancelled(a, audio, lang)).outcome.Finished?
      {
        SmoothScanSucceeds(Uncancelled(a, audio, lang), WindowCount(|audio|));
      }
    }
  }
}
