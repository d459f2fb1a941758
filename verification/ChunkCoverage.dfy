/** Nothing long goes missing: what the stitched transcript covers when every
    adapter call tiles its slice. */
module ChunkCoverage {
  import opened Wrappers
  import opened Stt
  import opened ChunkRecursion
  import opened Chunker
  import opened ChunkWindows
  import opened ChunkOrder

  /** The segments run from 0 to `len` without gap or overlap, none longer than `longest`. */
  predicate Tiles(segs: seq<SttSegment>, len: real, longest: real) {
    && segs != []
    && segs[0].startS == 0.0
    && segs[|segs| - 1].endS == len
    && (forall i :: 0 <= i < |segs| ==> 0.0 <= segs[i].endS - segs[i].startS <= longest)
    && (forall i :: 0 <= i < |segs| - 1 ==> segs[i].endS == segs[i + 1].startS)
  }

  predicate TilingReply(reply: Reply, len: nat, longest: real) {
    reply.Text? && len > 0 ==> Tiles(reply.stt.segments, Seconds(len), longest)
  }

  /** Every answer about a non-empty slice tiles it with segments no longer than `longest`. */
  ghost predicate TilingAdapter(a: Adapter, longest: real) {
    forall n: nat, r: Request :: TilingReply(a(n, r), |r.audio|, longest)
  }

  lemma JoinTiles(left: SttTranscription, right: SttTranscription, mid: nat, len: nat, longest: real)
    requires mid <= len
    requires Tiles(left.segments, Seconds(mid), longest) && Tiles(right.segments, Seconds(len - mid), longest)
    ensures Tiles(Join(left, right, Seconds(mid)).segments, Seconds(len), longest)
  {
    var x, joined := |left.segments|, Join(left, right, Seconds(mid)).segments;
    assert Seconds(mid) + Seconds(len - mid) == Seconds(len);
    forall i | 0 <= i < |joined| - 1
      ensures joined[i].endS == joined[i + 1].startS
    {
      if x <= i {
        assert right.segments[i - x].endS == right.segments[i - x + 1].startS;
      }
    }
  }

  /** Splitting loses nothing: a chunk that succeeds tiles its whole slice. */
  lemma {:induction false} ChunkTiles(a: Adapter, n: nat, audio: seq<Sample>, lang: Option<string>, chunkS: real,
                                      longest: real, run: ChunkRun)
    requires TilingAdapter(a, longest)
    requires Tracks(chunkS, |audio|) && |audio| > 0
    requires run == TranscribeChunk(a, n, audio, lang, chunkS) && run.reply.Text?
    ensures Tiles(run.reply.stt.segments, Seconds(|audio|), longest)
    decreases Fuel(chunkS)
  {
    if MustSplit(a(n, SplitRequest(audio, lang)), chunkS) {
      var mid := |audio| / 2;
      var left := TranscribeChunk(a, n + 1, audio[..mid], lang, chunkS / 2.0);
      var right := TranscribeChunk(a, left.next, audio[mid..], lang, chunkS / 2.0);
      SplitRun(a, n, audio, lang, chunkS, mid, left, right);
      TracksHalves(chunkS, |audio|);
      ChunkTiles(a, n + 1, audio[..mid], lang, chunkS / 2.0, longest, left);
      ChunkTiles(a, left.next, audio[mid..], lang, chunkS / 2.0, longest, right);
      JoinTiles(left.reply.stt, right.reply.stt, mid, |audio|, longest);
    } else {
      UnsplitRun(a, n, audio, lang, chunkS);
      assert TilingReply(a(n, SplitRequest(audio, lang)), |audio|, longest);
    }
  }

  // ---------------------------------------------------------------- dedupe of a tiling

  function PlaceAll(segs: seq<SttSegment>, chunkStart: real): (r: seq<TranscriptSegment>)
    ensures |r| == |segs|
    ensures forall i :: 0 <= i < |segs| ==> r[i] == Place(segs[i], chunkStart)
  {
    seq(|segs|, i requires 0 <= i < |segs| => Place(segs[i], chunkStart))
  }

  predicate StartsRise(segs: seq<SttSegment>) {
    forall i, j :: 0 <= i < j < |segs| ==> segs[i].startS <= segs[j].startS
  }

  lemma {:induction false} TilesRise(segs: seq<SttSegment>, len: real, longest: real)
    requires Tiles(segs, len, longest)
    ensures StartsRise(segs)
    ensures forall i :: 0 <= i < |segs| ==> 0.0 <= segs[i].startS && segs[i].endS <= len
  {
    var n := 1;
    while n < |segs|
      invariant 1 <= n <= |segs|
      invariant StartsRise(segs[..n])
      invariant forall i :: 0 <= i < n ==> 0.0 <= segs[i].startS && segs[i].endS <= segs[n - 1].endS
    {
      assert segs[n - 1].endS == segs[n].startS;
      n := n + 1;
    }
    assert segs[..n] == segs;
  }

  /** `cut` separates the segments the dedupe drops from those it keeps. */
  predicate CutAt(segs: seq<SttSegment>, chunkStart: real, prevEnd: real, cut: nat) {
    && cut <= |segs|
    && (forall i :: 0 <= i < cut ==> segs[i].startS + chunkStart < prevEnd)
    && (forall i :: cut <= i < |segs| ==> prevEnd <= segs[i].startS + chunkStart)
  }

  lemma CutExists(segs: seq<SttSegment>, chunkStart: real, prevEnd: real) returns (cut: nat)
    requires StartsRise(segs)
    ensures CutAt(segs, chunkStart, prevEnd, cut)
  {
    cut := 0;
    while cut < |segs| && segs[cut].startS + chunkStart < prevEnd
      invariant cut <= |segs|
      invariant forall i :: 0 <= i < cut ==> segs[i].startS + chunkStart < prevEnd
    {
      cut := cut + 1;
    }
  }

  lemma PlaceAllOneMore(segs: seq<SttSegment>, cut: nat, n: nat, chunkStart: real)
    requires cut <= n < |segs|
    ensures PlaceAll(segs[cut..n + 1], chunkStart) == PlaceAll(segs[cut..n], chunkStart) + [Place(segs[n], chunkStart)]
  {
  }

  /** Where there is such a cut, the dedupe keeps exactly a suffix of the window. */
  lemma KeptIsSuffix(segs: seq<SttSegment>, chunkStart: real, prevEnd: real, cut: nat)
    requires CutAt(segs, chunkStart, prevEnd, cut)
    ensures Kept(segs, chunkStart, prevEnd) == PlaceAll(segs[cut..], chunkStart)
  {
    var n := 0;
    while n < |segs|
      invariant n <= |segs|
      invariant Kept(segs[..n], chunkStart, prevEnd) == if n <= cut then [] else PlaceAll(segs[cut..n], chunkStart)
    {
      KeptOneMore(segs, n, chunkStart, prevEnd);
      if cut <= n {
        PlaceAllOneMore(segs, cut, n, chunkStart);
      }
      n := n + 1;
    }
    assert segs[..n] == segs && segs[cut..n] == segs[cut..];
  }

  // ---------------------------------------------------------------- the whole file

  predicate SmallGaps(segs: seq<TranscriptSegment>, longest: real) {
    forall i :: 0 <= i < |segs| - 1 ==>
                  segs[i].endS <= segs[i + 1].startS <= segs[i].endS + longest
  }

  /** The transcript starts at 0, has no gap longer than `longest`, and ends within
      `longest` of `end`. */
  predicate Covers(segs: seq<TranscriptSegment>, end: real, longest: real) {
    && segs != []
    && segs[0].startS == 0.0
    && SmallGaps(segs, longest)
    && segs[|segs| - 1].endS <= end <= segs[|segs| - 1].endS + longest
  }

  /** After `k` windows; up to the end of the file the last segment ends its window. */
  predicate CoversWindows(segs: seq<TranscriptSegment>, total: nat, k: nat, longest: real) {
    if k == 0 then segs == []
    else
      && Covers(segs, PrevEnd(total, k), longest)
      && (PrevEnd(total, k) < Seconds(total) ==> segs[|segs| - 1].endS == PrevEnd(total, k))
  }

  lemma AppendCovers(x: seq<TranscriptSegment>, y: seq<TranscriptSegment>, end: real, longest: real)
    requires x != [] && x[0].startS == 0.0 && SmallGaps(x, longest)
    requires y != [] && SmallGaps(y, longest) && y[|y| - 1].endS == end
    requires x[|x| - 1].endS <= y[0].startS <= x[|x| - 1].endS + longest
    requires 0.0 <= longest
    ensures Covers(x + y, end, longest) && (x + y)[|x + y| - 1].endS == end
  {
    forall i | 0 <= i < |x + y| - 1
      ensures (x + y)[i].endS <= (x + y)[i + 1].startS <= (x + y)[i].endS + longest
    {
      if i >= |x| {
        assert y[i - |x|].endS <= y[i - |x| + 1].startS <= y[i - |x|].endS + longest;
      }
    }
  }

  lemma PlacedTilesHaveNoGaps(segs: seq<SttSegment>, len: real, longest: real, cut: nat, chunkStart: real)
    requires Tiles(segs, len, longest) && cut < |segs| && 0.0 <= longest
    ensures SmallGaps(PlaceAll(segs[cut..], chunkStart), longest)
    ensures PlaceAll(segs[cut..], chunkStart)[|segs| - cut - 1].endS == chunkStart + len
  {
    var r := PlaceAll(segs[cut..], chunkStart);
    forall i | 0 <= i < |r| - 1
      ensures r[i].endS <= r[i + 1].startS <= r[i].endS + longest
    {
      assert segs[cut + i].endS == segs[cut + i + 1].startS;
    }
  }

  /** The kept part of one tiled window. */
  predicate TiledWindow(segs: seq<SttSegment>, total: nat, k: nat, longest: real, cut: nat) {
    && WindowStart(k) < total
    && 0.0 <= longest <= STEP_SECONDS as real
    && Tiles(segs, Seconds(WindowEnd(total, k) - WindowStart(k)), longest)
    && StartsRise(segs)
    && (forall i :: 0 <= i < |segs| ==> segs[i].endS <= Seconds(WindowEnd(total, k) - WindowStart(k)))
    && CutAt(segs, Seconds(WindowStart(k)), PrevEnd(total, k), cut)
  }

  lemma FirstWindowCovers(segs: seq<SttSegment>, total: nat, longest: real, cut: nat)
    requires TiledWindow(segs, total, 0, longest, cut)
    ensures CoversWindows(PlaceAll(segs[cut..], Seconds(WindowStart(0))), total, 1, longest)
  {
    assert cut == 0 by { TilesRise(segs, Seconds(WindowEnd(total, 0)), longest); }
    assert segs[0..] == segs && WindowStart(0) == 0 && Seconds(0) == 0.0;
    assert PrevEnd(total, 1) == Seconds(WindowEnd(total, 0)) && WindowEnd(total, 0) - 0 == WindowEnd(total, 0);
    PlacedTilesHaveNoGaps(segs, Seconds(WindowEnd(total, 0)), longest, 0, 0.0);
  }

  lemma LaterWindowCovers(merged: seq<TranscriptSegment>, segs: seq<SttSegment>, total: nat, k: nat, longest: real,
                          cut: nat)
    requires k > 0 && TiledWindow(segs, total, k, longest, cut) && cut < |segs|
    requires CoversWindows(merged, total, k, longest)
    ensures CoversWindows(merged + PlaceAll(segs[cut..], Seconds(WindowStart(k))), total, k + 1, longest)
  {
    WindowEnds(total, k);
    PlacedTilesHaveNoGaps(segs, Seconds(WindowEnd(total, k) - WindowStart(k)), longest, cut, Seconds(WindowStart(k)));
    FirstKeptIsNear(merged, segs, total, k, longest, cut);
    AppendCovers(merged, PlaceAll(segs[cut..], Seconds(WindowStart(k))), PrevEnd(total, k + 1), longest);
  }

  /** A window all of whose segments are dropped can only be the last one before the end. */
  lemma DroppedWindowCovers(merged: seq<TranscriptSegment>, segs: seq<SttSegment>, total: nat, k: nat, longest: real)
    requires k > 0 && TiledWindow(segs, total, k, longest, |segs|)
    requires CoversWindows(merged, total, k, longest)
    ensures CoversWindows(merged, total, k + 1, longest)
  {
    WindowEnds(total, k);
    assert segs[|segs| - 1].startS + Seconds(WindowStart(k)) < PrevEnd(total, k);
  }

  /** Adding the kept part of one tiled window keeps the coverage. */
  lemma WindowCovers(merged: seq<TranscriptSegment>, segs: seq<SttSegment>, total: nat, k: nat, longest: real)
    requires WindowStart(k) < total && 0.0 <= longest <= STEP_SECONDS as real
    requires CoversWindows(merged, total, k, longest)
    requires Tiles(segs, Seconds(WindowEnd(total, k) - WindowStart(k)), longest)
    ensures CoversWindows(merged + Kept(segs, Seconds(WindowStart(k)), PrevEnd(total, k)), total, k + 1, longest)
  {
    TilesRise(segs, Seconds(WindowEnd(total, k) - WindowStart(k)), longest);
    var cut := CutExists(segs, Seconds(WindowStart(k)), PrevEnd(total, k));
    KeptIsSuffix(segs, Seconds(WindowStart(k)), PrevEnd(total, k), cut);
    SuffixCovers(merged, segs, total, k, longest, cut);
  }

  lemma SuffixCovers(merged: seq<TranscriptSegment>, segs: seq<SttSegment>, total: nat, k: nat, longest: real, cut: nat)
    requires TiledWindow(segs, total, k, longest, cut) && CoversWindows(merged, total, k, longest)
    ensures CoversWindows(merged + PlaceAll(segs[cut..], Seconds(WindowStart(k))), total, k + 1, longest)
  {
    var placed := PlaceAll(segs[cut..], Seconds(WindowStart(k)));
    if k == 0 {
      assert merged + placed == placed;
      FirstWindowCovers(segs, total, longest, cut);
    } else if cut < |segs| {
      LaterWindowCovers(merged, segs, total, k, longest, cut);
    } else {
      DroppedWindowCovers(merged, segs, total, k, longest);
      assert merged + placed == merged;
    }
  }

  lemma FirstKeptIsNear(merged: seq<TranscriptSegment>, segs: seq<SttSegment>, total: nat, k: nat, longest: real,
                        cut: nat)
    requires k > 0 && TiledWindow(segs, total, k, longest, cut) && cut < |segs|
    requires CoversWindows(merged, total, k, longest)
    ensures var last := merged[|merged| - 1].endS;
            last <= segs[cut].startS + Seconds(WindowStart(k)) <= last + longest
  {
    WindowEnds(total, k);
    assert Seconds(WindowStart(k)) < PrevEnd(total, k);
    assert cut > 0;
    assert segs[cut - 1].endS == segs[cut].startS;
    assert segs[cut].startS <= segs[cut].endS;
  }

  predicate ScanCovered(t: Task, st: Scan, k: nat, longest: real) {
    st.Going? ==> CoversWindows(st.merged, |t.audio|, k, longest)
  }

  lemma WindowKeepsCover(t: Task, st: Scan, k: nat, longest: real)
    requires st.Going? && WindowStart(k) < |t.audio|
    requires TilingAdapter(t.a, longest) && 0.0 <= longest <= STEP_SECONDS as real
    requires ScanCovered(t, st, k, longest)
    ensures ScanCovered(t, ScanWindow(t, st, k), k + 1, longest)
  {
    if ScanWindow(t, st, k).Going? {
      var chunk := Window(t.audio, k);
      WindowSeconds(t, k);
      var run := TranscribeChunk(t.a, st.calls, chunk, t.lang, Seconds(|chunk|));
      ChunkTiles(t.a, st.calls, chunk, t.lang, Seconds(|chunk|), longest, run);
      WindowCovers(st.merged, run.reply.stt.segments, |t.audio|, k, longest);
    }
  }

  lemma ScanCovers(t: Task, k: nat, longest: real)
    requires k <= WindowCount(|t.audio|)
    requires TilingAdapter(t.a, longest) && 0.0 <= longest <= STEP_SECONDS as real
    ensures ScanCovered(t, Scanned(t, k), k, longest)
  {
    var inv := (st: Scan, j: nat) => ScanCovered(t, st, j, longest);
    forall st: Scan, j: nat | WindowStart(j) < |t.audio| && inv(st, j)
      ensures inv(if st.Halted? then st else ScanWindow(t, st, j), j + 1)
    {
      if st.Going? {
        WindowKeepsCover(t, st, j, longest);
      }
    }
    ScanInvariant(t, k, inv);
  }

  /** If every adapter call tiles its slice with segments of at most `longest` seconds,
      `longest` being no more than the 870 s step, then the stitched transcript starts at
      0, has no gap longer than `longest` and ends within `longest` of the end of the
      file, whatever ran out of memory and was split on the way. */
  lemma WindowedCovers(t: Task, longest: real)
    requires TilingAdapter(t.a, longest) && 0.0 <= longest <= STEP_SECONDS as real
    requires t.audio != [] && Windowed(t).outcome.Finished?
    ensures Covers(Windowed(t).outcome.transcript.segments, Seconds(|t.audio|), longest)
  {
    var n := WindowCount(|t.audio|);
    ProgressCountsUp(t, n);
    ScanCovers(t, n, longest);
    LastPrevEnd(|t.audio|);
  }

  /** And so does every finished transcript; a file of up to 30 minutes is one slice. */
  lemma TranscriptCovers(t: Task, detect: seq<Sample> -> Result<string, Failure>, longest: real)
    requires TilingAdapter(t.a, longest) && 0.0 <= longest
    requires !Short(t.audio) ==> longest <= 870.0
    requires t.audio != [] && Transcription(t, detect).outcome.Finished?
    ensures Covers(Transcription(t, detect).outcome.transcript.segments, Seconds(|t.audio|), longest)
  {
    if Short(t.audio) {
      var reply := t.a(0, Request(t.audio, t.lang, true));
      assert TilingReply(reply, |t.audio|, longest);
      PlacedTilesHaveNoGaps(reply.stt.segments, Seconds(|t.audio|), longest, 0, 0.0);
      assert reply.stt.segments[0..] == reply.stt.segments;
    } else {
      var lang := if t.lang.Some? then t.lang
                  else Some(detect(t.audio[..SAMPLE_RATE * 30]).value);
      WindowedCovers(t.(lang := lang), longest);
    }
  }
}
