/** Exactness of the stitching: which utterances come through, and how. */
module ChunkExact {
  import opened Wrappers
  import opened Stt
  import opened ChunkRecursion
  import opened Chunker
  import opened ChunkSplits
  import opened ChunkOrder
  import opened ChunkCoverage

  /** The end of window `k` falls strictly inside the utterance. */
  predicate Cuts(total: nat, k: nat, u: SttSegment) {
    u.startS < Seconds(WindowEnd(total, k)) < u.endS
  }

  ghost predicate Straddles(total: nat, u: SttSegment) {
    exists k: nat :: k < WindowCount(total) && Cuts(total, k, u)
  }

  /** What window `k` adds. */
  predicate Adds(total: nat, k: nat, u: SttSegment) {
    PrevEnd(total, k) <= u.startS && u.endS <= Seconds(WindowEnd(total, k))
  }

  /** What the first `k` windows have brought in. */
  ghost predicate BroughtIn(total: nat, k: nat, u: SttSegment) {
    u.endS <= PrevEnd(total, k) && forall j: nat :: j < k ==> !Cuts(total, j, u)
  }

  lemma KeptOneUtterance(x: seq<SttSegment>, u: SttSegment, chunkStart: real, prevEnd: real)
    ensures Kept(Shift(x + [u], -chunkStart), chunkStart, prevEnd)
            == Kept(Shift(x, -chunkStart), chunkStart, prevEnd) + if u.startS < prevEnd then [] else [Place(u, 0.0)]
  {
    var s := Shift(x + [u], -chunkStart);
    assert s[..|x|] == Shift(x, -chunkStart);
    assert s[..|x| + 1] == s;
    KeptOneMore(s, |x|, chunkStart, prevEnd);
    assert Place(s[|x|], chunkStart) == Place(u, 0.0);
  }

  /** Shifting a window's utterances into window time, deduping and placing them back
      gives exactly those that do not begin before the previous end. */
  lemma {:induction false} KeptOfFilter(ref: seq<SttSegment>, inside: SttSegment -> bool, adds: SttSegment -> bool,
                                        chunkStart: real, prevEnd: real)
    requires forall u | u in ref :: adds(u) == (inside(u) && prevEnd <= u.startS)
    ensures Kept(Shift(Filter(ref, inside), -chunkStart), chunkStart, prevEnd) == PlaceAll(Filter(ref, adds), 0.0)
  {
    if ref != [] {
      var n := |ref| - 1;
      KeptOfFilter(ref[..n], inside, adds, chunkStart, prevEnd);
      if inside(ref[n]) {
        KeptOneUtterance(Filter(ref[..n], inside), ref[n], chunkStart, prevEnd);
        PlaceAllConcat(Filter(ref[..n], adds), if adds(ref[n]) then [ref[n]] else [], 0.0);
      } else {
        assert Filter(ref, inside) == Filter(ref[..n], inside);
        assert Filter(ref, adds) == Filter(ref[..n], adds);
      }
    } else {
      assert Shift(Filter(ref, inside), -chunkStart) == [];
    }
  }

  lemma WindowEndsRise(total: nat, j: nat, k: nat)
    requires j <= k
    ensures WindowEnd(total, j) <= WindowEnd(total, k)
  {
  }

  lemma BroughtInStep(total: nat, k: nat, u: SttSegment)
    requires WindowStart(k) < total && 0.0 <= u.startS < u.endS <= Seconds(total)
    ensures BroughtIn(total, k + 1, u) == (BroughtIn(total, k, u) || Adds(total, k, u))
  {
    WindowEnds(total, k);
    if BroughtIn(total, k + 1, u) && PrevEnd(total, k) < u.endS && k > 0 {
      assert !Cuts(total, k - 1, u);
    }
    if Adds(total, k, u) {
      forall j: nat | j < k + 1 ensures !Cuts(total, j, u) {
        WindowEndsRise(total, j, k);
        if j < k {
          WindowEndsRise(total, j, k - 1);
        }
      }
    }
  }

  lemma PlaceAllConcat(x: seq<SttSegment>, y: seq<SttSegment>, d: real)
    ensures PlaceAll(x + y, d) == PlaceAll(x, d) + PlaceAll(y, d)
  {
  }

  // ---------------------------------------------------------------- with splits

  /** Where window `k` is split. */
  ghost function WindowSplits(t: Task, k: nat): set<nat>
    requires k <= WindowCount(|t.audio|)
  {
    if WindowStart(k) >= |t.audio| || Scanned(t, k).Halted? then {}
    else
      var chunk := Window(t.audio, k);
      SplitPoints(t.a, Scanned(t, k).calls, chunk, t.lang, Seconds(|chunk|), WindowStart(k))
  }

  ghost predicate HeardWindow(t: Task, ref: seq<SttSegment>, k: nat)
    requires k < WindowCount(|t.audio|)
  {
    WindowStart(k) < |t.audio| && Scanned(t, k).Going? ==>
      var chunk := Window(t.audio, k);
      HeardSlices(t.a, Scanned(t, k).calls, chunk, t.lang, Seconds(|chunk|), WindowStart(k), ref)
  }

  /** Whatever is split, every slice that is not split is answered with the utterances
      that lie wholly inside it. */
  ghost predicate HearsUtterances(t: Task, ref: seq<SttSegment>) {
    forall k: nat :: k < WindowCount(|t.audio|) ==> HeardWindow(t, ref, k)
  }

  /** The utterance is window `k`'s to add, and a split of that window cuts it. */
  ghost predicate SplitLoses(t: Task, k: nat, u: SttSegment)
    requires k <= WindowCount(|t.audio|)
  {
    Adds(|t.audio|, k, u) && CutInside(WindowSplits(t, k), u)
  }

  ghost predicate AddsWhole(t: Task, k: nat, u: SttSegment)
    requires k <= WindowCount(|t.audio|)
  {
    Adds(|t.audio|, k, u) && !CutInside(WindowSplits(t, k), u)
  }

  ghost predicate BroughtWhole(t: Task, k: nat, u: SttSegment)
    requires k <= WindowCount(|t.audio|)
  {
    BroughtIn(|t.audio|, k, u) && forall j: nat :: j < k ==> !SplitLoses(t, j, u)
  }

  lemma BroughtWholeStep(t: Task, k: nat, u: SttSegment)
    requires k < WindowCount(|t.audio|) && WindowStart(k) < |t.audio|
    requires 0.0 <= u.startS < u.endS <= Seconds(|t.audio|)
    ensures BroughtWhole(t, k + 1, u) == (BroughtWhole(t, k, u) || AddsWhole(t, k, u))
  {
    BroughtInStep(|t.audio|, k, u);
    if Adds(|t.audio|, k, u) {
      forall j: nat | j < k ensures !SplitLoses(t, j, u) {
        AddedOnce(|t.audio|, j, k, u);
      }
      assert (forall j: nat :: j < k + 1 ==> !SplitLoses(t, j, u)) <==> !SplitLoses(t, k, u);
    } else {
      assert !SplitLoses(t, k, u);
    }
  }

  lemma AddedOnce(total: nat, j: nat, k: nat, u: SttSegment)
    requires j < k && u.startS < u.endS && Adds(total, k, u)
    ensures !Adds(total, j, u)
  {
    WindowEndsRise(total, j, k - 1);
    assert Seconds(WindowEnd(total, j)) <= PrevEnd(total, k);
  }

  ghost predicate ScanExact(t: Task, ref: seq<SttSegment>, k: nat)
    requires k <= WindowCount(|t.audio|)
  {
    && Scanned(t, k).Going?
    && Scanned(t, k).merged == PlaceAll(Filter(ref, u => BroughtWhole(t, k, u)), 0.0)
  }

  /** What one heard window adds to what the windows before it brought in. */
  lemma WindowAdds(t: Task, ref: seq<SttSegment>, st: Scan, k: nat, points: set<nat>, run: ChunkRun)
    requires st.Going? && !t.cancelled(k) && WindowStart(k) < |t.audio|
    requires var chunk := Window(t.audio, k);
             && run == TranscribeChunk(t.a, st.calls, chunk, t.lang, Seconds(|chunk|))
             && Hears(run, points, WindowStart(k), |chunk|, ref)
    ensures ScanWindow(t, st, k).Going?
    ensures ScanWindow(t, st, k).merged
            == st.merged + PlaceAll(Filter(ref, u => Adds(|t.audio|, k, u) && !CutInside(points, u)), 0.0)
  {
    var chunk, from := Window(t.audio, k), WindowStart(k);
    KeptOfFilter(ref, u => Whole(points, from, |chunk|, u), u => Adds(|t.audio|, k, u) && !CutInside(points, u),
                 Seconds(from), PrevEnd(|t.audio|, k));
  }

  lemma AddsComeLater(t: Task, ref: seq<SttSegment>, k: nat)
    requires Utterances(ref, |t.audio|) && k < WindowCount(|t.audio|) && WindowStart(k) < |t.audio|
    ensures Filter(ref, u => BroughtWhole(t, k, u)) + Filter(ref, u => AddsWhole(t, k, u))
            == Filter(ref, u => BroughtWhole(t, k + 1, u))
  {
    forall u | u in ref ensures BroughtWhole(t, k + 1, u) == (BroughtWhole(t, k, u) || AddsWhole(t, k, u)) {
      BroughtWholeStep(t, k, u);
    }
    FilterUnion(ref, u => BroughtWhole(t, k, u), u => AddsWhole(t, k, u), u => BroughtWhole(t, k + 1, u));
  }

  lemma WindowStaysExact(t: Task, ref: seq<SttSegment>, k: nat)
    requires Utterances(ref, |t.audio|) && HearsUtterances(t, ref)
    requires k < WindowCount(|t.audio|) && ScanExact(t, ref, k) && !t.cancelled(k)
    ensures ScanExact(t, ref, k + 1)
  {
    NextWindow(t, k);
    assert HeardWindow(t, ref, k);
    var chunk, st, points := Window(t.audio, k), Scanned(t, k), WindowSplits(t, k);
    var run := TranscribeChunk(t.a, st.calls, chunk, t.lang, Seconds(|chunk|));
    ChunkHears(t.a, st.calls, chunk, t.lang, Seconds(|chunk|), WindowStart(k), ref, |t.audio|, run, points);
    WindowAdds(t, ref, st, k, points, run);
    FilterSame(ref, u => Adds(|t.audio|, k, u) && !CutInside(points, u), u => AddsWhole(t, k, u));
    AddsComeLater(t, ref, k);
    PlaceAllConcat(Filter(ref, u => BroughtWhole(t, k, u)), Filter(ref, u => AddsWhole(t, k, u)), 0.0);
  }

  lemma NothingYet(t: Task, ref: seq<SttSegment>)
    requires Utterances(ref, |t.audio|)
    ensures ScanExact(t, ref, 0)
  {
    FilterNone(ref, u => BroughtWhole(t, 0, u));
  }

  lemma ScanIsExact(t: Task, ref: seq<SttSegment>)
    requires Utterances(ref, |t.audio|) && HearsUtterances(t, ref)
    requires forall j: nat :: !t.cancelled(j)
    ensures ScanExact(t, ref, WindowCount(|t.audio|))
  {
    var p := (k: nat) => k <= WindowCount(|t.audio|) && ScanExact(t, ref, k);
    NothingYet(t, ref);
    forall k: nat | k < WindowCount(|t.audio|) && p(k) ensures p(k + 1) {
      WindowStaysExact(t, ref, k);
    }
    HoldsUpTo(WindowCount(|t.audio|), p);
  }

  /** The utterance is lost: a window end cuts it, or a split of the window that should
      have added it. */
  ghost predicate Lost(t: Task, u: SttSegment) {
    || Straddles(|t.audio|, u)
    || exists k: nat :: k < WindowCount(|t.audio|) && SplitLoses(t, k, u)
  }

  /** A transcript of exactly these utterances: their times, texts and confidences, and no
      speakers. */
  predicate SaysExactly(segments: seq<TranscriptSegment>, utterances: seq<SttSegment>) {
    && |segments| == |utterances|
    && forall i :: 0 <= i < |segments| ==>
         segments[i] == TranscriptSegment(utterances[i].startS, utterances[i].endS, utterances[i].text, None,
                                          utterances[i].confidence)
  }

  /** Without cancel the run finishes, whatever runs out of memory and is split, and the
      stitched transcript is, in order and with its original times and text, every
      utterance that is not lost, each exactly once, and nothing else. */
  lemma StitchingIsExact(t: Task, ref: seq<SttSegment>)
    requires Utterances(ref, |t.audio|) && HearsUtterances(t, ref)
    requires forall j: nat :: !t.cancelled(j)
    ensures Windowed(t).outcome.Finished?
    ensures SaysExactly(Windowed(t).outcome.transcript.segments, Filter(ref, u => !Lost(t, u)))
  {
    var n := WindowCount(|t.audio|);
    ScanIsExact(t, ref);
    LastPrevEnd(|t.audio|);
    forall u | u in ref ensures BroughtWhole(t, n, u) == !Lost(t, u) {
    }
    FilterSame(ref, u => BroughtWhole(t, n, u), u => !Lost(t, u));
  }

  // ---------------------------------------------------------------- without splits

  ghost predicate AnswersWindow(t: Task, ref: seq<SttSegment>, k: nat)
    requires WindowStart(k) < |t.audio|
  {
    var reply := t.a(k, SplitRequest(Window(t.audio, k), t.lang));
    && reply.Text?
    && reply.stt.segments
        == Shift(Filter(ref, u => InSlice(u, WindowStart(k), |Window(t.audio, k)|)), -Seconds(WindowStart(k)))
  }

  /** Nothing runs out of memory: call `k` answers window `k` with the utterances that
      lie wholly inside it. */
  ghost predicate AnswersEveryWindow(t: Task, ref: seq<SttSegment>) {
    forall k: nat :: WindowStart(k) < |t.audio| ==> AnswersWindow(t, ref, k)
  }

  lemma AnsweredWindow(t: Task, ref: seq<SttSegment>, st: Scan, k: nat)
    requires st.Going? && st.calls == k && !t.cancelled(k) && WindowStart(k) < |t.audio| && AnswersWindow(t, ref, k)
    ensures var chunk := Window(t.audio, k);
            && HeardSlices(t.a, k, chunk, t.lang, Seconds(|chunk|), WindowStart(k), ref)
            && SplitPoints(t.a, k, chunk, t.lang, Seconds(|chunk|), WindowStart(k)) == {}
    ensures ScanWindow(t, st, k).Going? && ScanWindow(t, st, k).calls == k + 1
  {
  }

  lemma {:induction false} CallsAreWindows(t: Task, ref: seq<SttSegment>, k: nat)
    requires AnswersEveryWindow(t, ref) && k <= WindowCount(|t.audio|)
    requires forall j: nat :: !t.cancelled(j)
    ensures Scanned(t, k).Going? && Scanned(t, k).calls == k
  {
    if k != 0 {
      CallsAreWindows(t, ref, k - 1);
      NextWindow(t, k - 1);
      AnsweredWindow(t, ref, Scanned(t, k - 1), k - 1);
    }
  }

  lemma NothingIsSplit(t: Task, ref: seq<SttSegment>, k: nat)
    requires AnswersEveryWindow(t, ref) && k < WindowCount(|t.audio|)
    requires forall j: nat :: !t.cancelled(j)
    ensures HeardWindow(t, ref, k) && WindowSplits(t, k) == {}
  {
    CallsAreWindows(t, ref, k);
    NextWindow(t, k);
    AnsweredWindow(t, ref, Scanned(t, k), k);
  }

  /** If nothing runs out of memory there is one call a window, and exactly the utterances
      that a window end cuts are lost. */
  lemma UnsplitStitchingIsExact(t: Task, ref: seq<SttSegment>)
    requires Utterances(ref, |t.audio|) && AnswersEveryWindow(t, ref)
    requires forall j: nat :: !t.cancelled(j)
    ensures Windowed(t).outcome.Finished? && Windowed(t).calls == WindowCount(|t.audio|)
    ensures SaysExactly(Windowed(t).outcome.transcript.segments, Filter(ref, u => !Straddles(|t.audio|, u)))
  {
    forall k: nat | k < WindowCount(|t.audio|) ensures HeardWindow(t, ref, k) && WindowSplits(t, k) == {} {
      NothingIsSplit(t, ref, k);
    }
    CallsAreWindows(t, ref, WindowCount(|t.audio|));
    StitchingIsExact(t, ref);
    FilterSame(ref, u => !Lost(t, u), u => !Straddles(|t.audio|, u));
  }

  // ---------------------------------------------------------------- files of any length

  /** The windowed work for a long file, in the language asked for or detected. */
  function Spoken(t: Task, detect: seq<Sample> -> Result<string, Failure>): Task {
    if t.lang.Some? || Short(t.audio) then t
    else
      var found := detect(t.audio[..SAMPLE_RATE * 30]);
      t.(lang := if found.Ok? then Some(found.value) else None)
  }

  /** The adapter hears the reference utterances in every slice it answers, in the one
      call for a short file or in the windows of a long one. */
  ghost predicate HearsFile(t: Task, detect: seq<Sample> -> Result<string, Failure>, ref: seq<SttSegment>) {
    if Short(t.audio) then
      var reply := t.a(0, Request(t.audio, t.lang, true));
      reply.Text? && reply.stt.segments == ref
    else Spoken(t, detect).lang.Some? && HearsUtterances(Spoken(t, detect), ref)
  }

  /** For a file of any length: the transcript is every utterance exactly once, except
      that a file of more than 30 minutes loses those cut by a window end or by a split. */
  lemma TranscriptIsExact(t: Task, detect: seq<Sample> -> Result<string, Failure>, ref: seq<SttSegment>)
    requires Utterances(ref, |t.audio|) && HearsFile(t, detect, ref)
    requires forall j: nat :: !t.cancelled(j)
    ensures Transcription(t, detect).outcome.Finished?
    ensures SaysExactly(Transcription(t, detect).outcome.transcript.segments,
                        Filter(ref, u => Short(t.audio) || !Lost(Spoken(t, detect), u)))
  {
    if Short(t.audio) {
      FilterAll(ref, u => Short(t.audio) || !Lost(Spoken(t, detect), u));
    } else {
      StitchingIsExact(Spoken(t, detect), ref);
      FilterSame(ref, u => !Lost(Spoken(t, detect), u), u => Short(t.audio) || !Lost(Spoken(t, detect), u));
    }
  }
}
