/** Stitched transcripts are in order, never overlap and stay inside the file. */
module ChunkOrder {
  import opened Wrappers
  import opened Stt
  import opened ChunkRecursion
  import opened Chunker
  import opened ChunkWindows

  /** Segments in order and pairwise disjoint, between `lo` and `hi`. */
  predicate Ordered(segs: seq<SttSegment>, lo: real, hi: real) {
    && (forall i :: 0 <= i < |segs| ==> lo <= segs[i].startS <= segs[i].endS <= hi)
    && (forall i, j :: 0 <= i < j < |segs| ==> segs[i].endS <= segs[j].startS)
  }

  predicate OrderedTranscript(segs: seq<TranscriptSegment>, lo: real, hi: real) {
    && (forall i :: 0 <= i < |segs| ==> lo <= segs[i].startS <= segs[i].endS <= hi)
    && (forall i, j :: 0 <= i < j < |segs| ==> segs[i].endS <= segs[j].startS)
  }

  predicate OrderedReply(reply: Reply, len: nat) {
    reply.Text? ==> Ordered(reply.stt.segments, 0.0, Seconds(len))
  }

  /** Every answer of the adapter is in order, disjoint and inside its slice. */
  ghost predicate OrderedAdapter(a: Adapter) {
    forall n: nat, r: Request :: OrderedReply(a(n, r), |r.audio|)
  }

  lemma JoinOrdered(left: SttTranscription, right: SttTranscription, mid: nat, len: nat)
    requires mid <= len
    requires Ordered(left.segments, 0.0, Seconds(mid)) && Ordered(right.segments, 0.0, Seconds(len - mid))
    ensures Ordered(Join(left, right, Seconds(mid)).segments, 0.0, Seconds(len))
  {
    assert Seconds(mid) + Seconds(len - mid) == Seconds(len);
  }

  /** Splitting keeps order: for every pattern of out-of-memory failures that ends
      in success, the chunk is ordered and inside its slice. */
  lemma {:induction false} ChunkOrdered(a: Adapter, n: nat, audio: seq<Sample>, lang: Option<string>, chunkS: real)
    requires OrderedAdapter(a)
    requires TranscribeChunk(a, n, audio, lang, chunkS).reply.Text?
    ensures Ordered(TranscribeChunk(a, n, audio, lang, chunkS).reply.stt.segments, 0.0, Seconds(|audio|))
    decreases Fuel(chunkS)
  {
    if MustSplit(a(n, SplitRequest(audio, lang)), chunkS) {
      var mid := |audio| / 2;
      var left := TranscribeChunk(a, n + 1, audio[..mid], lang, chunkS / 2.0);
      var right := TranscribeChunk(a, left.next, audio[mid..], lang, chunkS / 2.0);
      SplitRun(a, n, audio, lang, chunkS, mid, left, right);
      ChunkOrdered(a, n + 1, audio[..mid], lang, chunkS / 2.0);
      ChunkOrdered(a, left.next, audio[mid..], lang, chunkS / 2.0);
      JoinOrdered(left.reply.stt, right.reply.stt, mid, |audio|);
    } else {
      UnsplitRun(a, n, audio, lang, chunkS);
      assert OrderedReply(a(n, SplitRequest(audio, lang)), |audio|);
    }
  }

  lemma {:induction false} KeptOrdered(segs: seq<SttSegment>, len: real, chunkStart: real, prevEnd: real)
    requires Ordered(segs, 0.0, len)
    ensures OrderedTranscript(Kept(segs, chunkStart, prevEnd), prevEnd, chunkStart + len)
    ensures forall t | t in Kept(segs, chunkStart, prevEnd) ::
              exists i :: 0 <= i < |segs| && t == Place(segs[i], chunkStart)
  {
    if segs != [] {
      var init := segs[..|segs| - 1];
      KeptOrdered(init, len, chunkStart, prevEnd);
      forall t | t in Kept(segs, chunkStart, prevEnd)
        ensures exists i :: 0 <= i < |segs| && t == Place(segs[i], chunkStart)
      {
        if t in Kept(init, chunkStart, prevEnd) {
          var i :| 0 <= i < |init| && t == Place(init[i], chunkStart);
          assert t == Place(segs[i], chunkStart);
        } else {
          assert t == Place(segs[|segs| - 1], chunkStart);
        }
      }
      forall t | t in Kept(init, chunkStart, prevEnd)
        ensures t.endS <= segs[|segs| - 1].startS + chunkStart
      {
        var i :| 0 <= i < |init| && t == Place(init[i], chunkStart);
      }
    }
  }

  lemma AppendOrdered(x: seq<TranscriptSegment>, y: seq<TranscriptSegment>, lo: real, mid: real, hi: real)
    requires lo <= mid <= hi
    requires OrderedTranscript(x, lo, mid) && OrderedTranscript(y, mid, hi)
    ensures OrderedTranscript(x + y, lo, hi)
  {
  }

  lemma WindowEnds(total: nat, k: nat)
    requires WindowStart(k) < total
    ensures PrevEnd(total, k) <= PrevEnd(total, k + 1) <= Seconds(total)
    ensures Seconds(WindowStart(k)) + Seconds(WindowEnd(total, k) - WindowStart(k)) == PrevEnd(total, k + 1)
  {
  }

  lemma WindowKeepsOrder(t: Task, st: Scan, k: nat)
    requires st.Going? && WindowStart(k) < |t.audio|
    requires OrderedAdapter(t.a)
    requires OrderedTranscript(st.merged, 0.0, PrevEnd(|t.audio|, k))
    requires ScanWindow(t, st, k).Going?
    ensures OrderedTranscript(ScanWindow(t, st, k).merged, 0.0, PrevEnd(|t.audio|, k + 1))
  {
    var chunk := Window(t.audio, k);
    ChunkOrdered(t.a, st.calls, chunk, t.lang, Seconds(|chunk|));
    var segs := TranscribeChunk(t.a, st.calls, chunk, t.lang, Seconds(|chunk|)).reply.stt.segments;
    var start, prev := Seconds(WindowStart(k)), PrevEnd(|t.audio|, k);
    KeptOrdered(segs, Seconds(|chunk|), start, prev);
    WindowEnds(|t.audio|, k);
    AppendOrdered(st.merged, Kept(segs, start, prev), 0.0, prev, PrevEnd(|t.audio|, k + 1));
  }

  lemma ScanOrdered(t: Task, k: nat)
    requires k <= WindowCount(|t.audio|) && Scanned(t, k).Going?
    requires OrderedAdapter(t.a)
    ensures OrderedTranscript(Scanned(t, k).merged, 0.0, PrevEnd(|t.audio|, k))
  {
    var inv := (st: Scan, j: nat) => st.Going? ==> OrderedTranscript(st.merged, 0.0, PrevEnd(|t.audio|, j));
    forall st: Scan, j: nat | WindowStart(j) < |t.audio| && inv(st, j)
      ensures inv(if st.Halted? then st else ScanWindow(t, st, j), j + 1)
    {
      if st.Going? && ScanWindow(t, st, j).Going? {
        WindowKeepsOrder(t, st, j);
      }
    }
    ScanInvariant(t, k, inv);
  }

  lemma LastPrevEnd(total: nat)
    ensures PrevEnd(total, WindowCount(total)) == Seconds(total)
  {
    WindowCountIsTotalChunks(total);
  }

  /** A finished transcript, short or stitched, whatever was split on the way, is
      sorted, pairwise non-overlapping and inside the file. */
  lemma TranscriptOrdered(t: Task, detect: seq<Sample> -> Result<string, Failure>)
    requires OrderedAdapter(t.a)
    requires Transcription(t, detect).outcome.Finished?
    ensures OrderedTranscript(Transcription(t, detect).outcome.transcript.segments, 0.0, Seconds(|t.audio|))
  {
    if Short(t.audio) {
      assert OrderedReply(t.a(0, Request(t.audio, t.lang, true)), |t.audio|);
    } else {
      var lang := if t.lang.Some? then t.lang
                  else Some(detect(t.audio[..SAMPLE_RATE * 30]).value);
      var task := t.(lang := lang);
      ProgressCountsUp(task, WindowCount(|t.audio|));
      ScanOrdered(task, WindowCount(|t.audio|));
      LastPrevEnd(|t.audio|);
    }
  }
}
