/** The split-both-halves retry of one window (`_transcribe_chunk_oom_safe`). */
module ChunkRecursion {
  import opened Wrappers
  import opened Stt

  const FLOOR_SECONDS := 60.0
  const FLOOR_SAMPLES := 60 * SAMPLE_RATE

  /** A slice the adapter answered: which call it was and what `chunk_s` said its length was. */
  datatype Leaf = Leaf(call: nat, audio: seq<Sample>, chunkS: real)

  /** What a chunk came to, the number of the adapter's next call, and a log of
      the slices answered so far, in call order. */
  datatype ChunkRun = ChunkRun(reply: Reply, next: nat, leaves: seq<Leaf>)

  function SplitRequest(audio: seq<Sample>, lang: Option<string>): Request {
    Request(audio, lang, false)
  }

  function Join(left: SttTranscription, right: SttTranscription, rightOffset: real): SttTranscription {
    SttTranscription(left.segments + Shift(right.segments, rightOffset),
                     left.language, left.languageProbability, left.duration + right.duration)
  }

  function Fuel(chunkS: real): int {
    if chunkS < FLOOR_SECONDS then 0 else chunkS.Floor
  }

  /** A raise that makes the chunker split: out of memory, and not yet below the floor. */
  predicate MustSplit(reply: Reply, chunkS: real) {
    FLOOR_SECONDS <= chunkS && reply.Raise? && IsOutOfMemory(reply.failure)
  }

  function TranscribeChunk(a: Adapter, n: nat, audio: seq<Sample>, lang: Option<string>, chunkS: real): (r: ChunkRun)
    ensures n < r.next
    decreases Fuel(chunkS)
  {
    var reply := a(n, SplitRequest(audio, lang));
    if !MustSplit(reply, chunkS) then
      ChunkRun(reply, n + 1, if reply.Text? then [Leaf(n, audio, chunkS)] else [])
    else
      var mid := |audio| / 2;
      var left := TranscribeChunk(a, n + 1, audio[..mid], lang, chunkS / 2.0);
      if left.reply.Raise? then left
      else Append(left, TranscribeChunk(a, left.next, audio[mid..], lang, chunkS / 2.0), mid)
  }

  /** Both halves of a chunk, once the left one is in. */
  function Append(left: ChunkRun, right: ChunkRun, mid: nat): ChunkRun
    requires left.reply.Text?
  {
    var reply := if right.reply.Raise? then right.reply
                 else Text(Join(left.reply.stt, right.reply.stt, Seconds(mid)));
    ChunkRun(reply, right.next, left.leaves + right.leaves)
  }

  // ---------------------------------------------------------------- cost

  function Pow2(d: nat): (p: nat)
    ensures 1 <= p
  {
    if d == 0 then 1 else 2 * Pow2(d - 1)
  }

  /** A chunk shorter than 60 * 2^d seconds costs at most 2^(d+1) - 1 adapter
      calls, whatever runs out of memory and whether or not the chunk succeeds. */
  lemma {:induction false} CallsBounded(a: Adapter, n: nat, audio: seq<Sample>, lang: Option<string>, chunkS: real,
                                        d: nat)
    requires chunkS < FLOOR_SECONDS * Pow2(d) as real
    ensures TranscribeChunk(a, n, audio, lang, chunkS).next - n <= 2 * Pow2(d) - 1
    decreases d
  {
    if MustSplit(a(n, SplitRequest(audio, lang)), chunkS) {
      var mid := |audio| / 2;
      assert d != 0;
      var left := TranscribeChunk(a, n + 1, audio[..mid], lang, chunkS / 2.0);
      CallsBounded(a, n + 1, audio[..mid], lang, chunkS / 2.0, d - 1);
      CallsBounded(a, left.next, audio[mid..], lang, chunkS / 2.0, d - 1);
    }
  }

  lemma WindowCallsBounded(a: Adapter, n: nat, audio: seq<Sample>, lang: Option<string>, chunkS: real)
    requires chunkS <= 900.0
    ensures TranscribeChunk(a, n, audio, lang, chunkS).next - n <= 31
  {
    assert Pow2(4) == 16 by { assert Pow2(2) == 4; }
    CallsBounded(a, n, audio, lang, chunkS, 4);
  }

  // ---------------------------------------------------------------- leaves

  /** One unfolding of a split that succeeds. */
  lemma SplitRun(a: Adapter, n: nat, audio: seq<Sample>, lang: Option<string>, chunkS: real,
                 mid: nat, left: ChunkRun, right: ChunkRun)
    requires MustSplit(a(n, SplitRequest(audio, lang)), chunkS)
    requires TranscribeChunk(a, n, audio, lang, chunkS).reply.Text?
    requires mid == |audio| / 2
    requires left == TranscribeChunk(a, n + 1, audio[..mid], lang, chunkS / 2.0)
    requires right == TranscribeChunk(a, left.next, audio[mid..], lang, chunkS / 2.0)
    ensures left.reply.Text? && right.reply.Text?
    ensures TranscribeChunk(a, n, audio, lang, chunkS) == Append(left, right, mid)
  {
  }

  ghost function LeafAudio(leaves: seq<Leaf>): seq<Sample> {
    if leaves == [] then [] else leaves[0].audio + LeafAudio(leaves[1..])
  }

  /** The segments the adapter gave for a leaf, in leaf-local time. */
  ghost function LocalSegments(a: Adapter, lang: Option<string>, l: Leaf): seq<SttSegment> {
    var reply := a(l.call, SplitRequest(l.audio, lang));
    if reply.Text? then reply.stt.segments else []
  }

  /** Lays the leaves' pieces end to end; `piece(l, k)` is leaf `l` placed after `k` samples. */
  ghost function LayOut<T>(leaves: seq<Leaf>, before: nat, piece: (Leaf, nat) -> seq<T>): seq<T> {
    if leaves == [] then [] else piece(leaves[0], before) + LayOut(leaves[1..], before + |leaves[0].audio|, piece)
  }

  /** The leaves' own segments, each moved by the samples that come before its leaf. */
  ghost function PlacedSegments(a: Adapter, lang: Option<string>, leaves: seq<Leaf>, before: nat): seq<SttSegment> {
    LayOut(leaves, before, (l: Leaf, k: nat) => Shift(LocalSegments(a, lang, l), Seconds(k)))
  }

  lemma {:induction false} LeafAudioConcat(x: seq<Leaf>, y: seq<Leaf>)
    ensures LeafAudio(x + y) == LeafAudio(x) + LeafAudio(y)
  {
    if x == [] {
      assert x + y == y;
    } else {
      assert (x + y)[1..] == x[1..] + y;
      LeafAudioConcat(x[1..], y);
    }
  }

  ghost function LeafLength(leaves: seq<Leaf>): (n: nat)
    ensures n == |LeafAudio(leaves)|
  {
    if leaves == [] then 0 else |leaves[0].audio| + LeafLength(leaves[1..])
  }

  lemma {:induction false} LayOutConcat<T>(x: seq<Leaf>, y: seq<Leaf>, before: nat, piece: (Leaf, nat) -> seq<T>)
    ensures LayOut(x + y, before, piece) == LayOut(x, before, piece) + LayOut(y, before + LeafLength(x), piece)
  {
    if x == [] {
      assert x + y == y;
    } else {
      assert (x + y)[1..] == x[1..] + y && (x + y)[0] == x[0];
      var next := before + |x[0].audio|;
      LayOutConcat(x[1..], y, next, piece);
      assert LayOut(x + y, before, piece) == piece(x[0], before) + LayOut(x[1..] + y, next, piece);
    }
  }

  lemma UnsplitRun(a: Adapter, n: nat, audio: seq<Sample>, lang: Option<string>, chunkS: real)
    requires !MustSplit(a(n, SplitRequest(audio, lang)), chunkS)
    requires TranscribeChunk(a, n, audio, lang, chunkS).reply.Text?
    ensures TranscribeChunk(a, n, audio, lang, chunkS)
            == ChunkRun(a(n, SplitRequest(audio, lang)), n + 1, [Leaf(n, audio, chunkS)])
  {
  }

  lemma LeafAlone(a: Adapter, lang: Option<string>, leaf: Leaf, before: nat)
    ensures LeafAudio([leaf]) == leaf.audio
    ensures PlacedSegments(a, lang, [leaf], before) == Shift(LocalSegments(a, lang, leaf), Seconds(before))
  {
    assert LeafAudio([leaf]) == leaf.audio + LeafAudio([]);
    var piece := (l: Leaf, k: nat) => Shift(LocalSegments(a, lang, l), Seconds(k));
    assert LayOut([leaf], before, piece) == piece(leaf, before) + LayOut([], before + |leaf.audio|, piece);
  }

  lemma JoinCover(x: seq<Leaf>, y: seq<Leaf>, audio: seq<Sample>, mid: nat)
    requires mid <= |audio| && LeafAudio(x) == audio[..mid] && LeafAudio(y) == audio[mid..]
    ensures LeafAudio(x + y) == audio
  {
    LeafAudioConcat(x, y);
  }

  /** When a chunk succeeds nothing of it was dropped: the slices the adapter
      answered concatenate to exactly the chunk's audio. */
  lemma {:induction false} LeavesCoverChunk(a: Adapter, n: nat, audio: seq<Sample>, lang: Option<string>, chunkS: real)
    requires TranscribeChunk(a, n, audio, lang, chunkS).reply.Text?
    ensures LeafAudio(TranscribeChunk(a, n, audio, lang, chunkS).leaves) == audio
    decreases Fuel(chunkS)
  {
    if MustSplit(a(n, SplitRequest(audio, lang)), chunkS) {
      var mid := |audio| / 2;
      var left := TranscribeChunk(a, n + 1, audio[..mid], lang, chunkS / 2.0);
      var right := TranscribeChunk(a, left.next, audio[mid..], lang, chunkS / 2.0);
      SplitRun(a, n, audio, lang, chunkS, mid, left, right);
      LeavesCoverChunk(a, n + 1, audio[..mid], lang, chunkS / 2.0);
      LeavesCoverChunk(a, left.next, audio[mid..], lang, chunkS / 2.0);
      JoinCover(left.leaves, right.leaves, audio, mid);
    } else {
      UnsplitRun(a, n, audio, lang, chunkS);
      LeafAlone(a, lang, Leaf(n, audio, chunkS), 0);
    }
  }

  lemma JoinShifted(left: SttTranscription, right: SttTranscription, mid: nat, before: nat)
    ensures Shift(Join(left, right, Seconds(mid)).segments, Seconds(before))
            == Shift(left.segments, Seconds(before)) + Shift(right.segments, Seconds(before + mid))
  {
    ShiftConcat(left.segments, Shift(right.segments, Seconds(mid)), Seconds(before));
    ShiftShift(right.segments, Seconds(mid), Seconds(before));
    assert Seconds(mid) + Seconds(before) == Seconds(before + mid);
  }

  /** A run's segments are its leaves' own segments, in order, each moved by its leaf's
      absolute offset and by nothing else. */
  ghost predicate Placed(a: Adapter, lang: Option<string>, run: ChunkRun, before: nat) {
    && run.reply.Text?
    && PlacedSegments(a, lang, run.leaves, before) == Shift(run.reply.stt.segments, Seconds(before))
  }

  lemma PlaceStep(a: Adapter, lang: Option<string>, left: ChunkRun, right: ChunkRun, mid: nat, before: nat)
    requires |LeafAudio(left.leaves)| == mid
    requires Placed(a, lang, left, before) && Placed(a, lang, right, before + mid)
    ensures Placed(a, lang, Append(left, right, mid), before)
  {
    LayOutConcat(left.leaves, right.leaves, before,
                 (l: Leaf, k: nat) => Shift(LocalSegments(a, lang, l), Seconds(k)));
    JoinShifted(left.reply.stt, right.reply.stt, mid, before);
  }

  lemma {:induction false} LeavesPlaceSegments(a: Adapter, n: nat, audio: seq<Sample>, lang: Option<string>,
                                               chunkS: real, before: nat, run: ChunkRun)
    requires run == TranscribeChunk(a, n, audio, lang, chunkS) && run.reply.Text?
    ensures Placed(a, lang, run, before)
    decreases Fuel(chunkS)
  {
    if MustSplit(a(n, SplitRequest(audio, lang)), chunkS) {
      var mid := |audio| / 2;
      var left := TranscribeChunk(a, n + 1, audio[..mid], lang, chunkS / 2.0);
      var right := TranscribeChunk(a, left.next, audio[mid..], lang, chunkS / 2.0);
      SplitRun(a, n, audio, lang, chunkS, mid, left, right);
      LeavesPlaceSegments(a, n + 1, audio[..mid], lang, chunkS / 2.0, before, left);
      LeavesPlaceSegments(a, left.next, audio[mid..], lang, chunkS / 2.0, before + mid, right);
      LeavesCoverChunk(a, n + 1, audio[..mid], lang, chunkS / 2.0);
      PlaceStep(a, lang, left, right, mid, before);
    } else {
      UnsplitRun(a, n, audio, lang, chunkS);
      LeafAlone(a, lang, Leaf(n, audio, chunkS), before);
    }
  }

  /** What the adapter answered for a leaf. */
  ghost function AnswerOf(a: Adapter, lang: Option<string>, l: Leaf): Reply {
    a(l.call, Request(l.audio, lang, false))
  }

  ghost function TotalDuration(a: Adapter, lang: Option<string>, leaves: seq<Leaf>): real {
    if leaves == [] then 0.0
    else
      var reply := AnswerOf(a, lang, leaves[0]);
      (if reply.Text? then reply.stt.duration else 0.0) + TotalDuration(a, lang, leaves[1..])
  }

  lemma {:induction false} TotalDurationConcat(a: Adapter, lang: Option<string>, x: seq<Leaf>, y: seq<Leaf>)
    ensures TotalDuration(a, lang, x + y) == TotalDuration(a, lang, x) + TotalDuration(a, lang, y)
  {
    if x == [] {
      assert x + y == y;
    } else {
      assert (x + y)[1..] == x[1..] + y;
      TotalDurationConcat(a, lang, x[1..], y);
    }
  }

  /** A chunk that succeeds takes its language from its first leaf, and its duration is
      that of all leaves together. */
  lemma {:induction false} LeavesGiveLanguageAndDuration(a: Adapter, n: nat, audio: seq<Sample>, lang: Option<string>,
                                                         chunkS: real, run: ChunkRun)
    requires run == TranscribeChunk(a, n, audio, lang, chunkS) && run.reply.Text?
    ensures run.leaves != [] && AnswerOf(a, lang, run.leaves[0]).Text?
    ensures run.reply.stt.language == AnswerOf(a, lang, run.leaves[0]).stt.language
    ensures run.reply.stt.languageProbability == AnswerOf(a, lang, run.leaves[0]).stt.languageProbability
    ensures run.reply.stt.duration == TotalDuration(a, lang, run.leaves)
    decreases Fuel(chunkS)
  {
    if MustSplit(a(n, SplitRequest(audio, lang)), chunkS) {
      var mid := |audio| / 2;
      var left := TranscribeChunk(a, n + 1, audio[..mid], lang, chunkS / 2.0);
      var right := TranscribeChunk(a, left.next, audio[mid..], lang, chunkS / 2.0);
      SplitRun(a, n, audio, lang, chunkS, mid, left, right);
      LeavesGiveLanguageAndDuration(a, n + 1, audio[..mid], lang, chunkS / 2.0, left);
      LeavesGiveLanguageAndDuration(a, left.next, audio[mid..], lang, chunkS / 2.0, right);
      TotalDurationConcat(a, lang, left.leaves, right.leaves);
    } else {
      UnsplitRun(a, n, audio, lang, chunkS);
      assert TotalDuration(a, lang, [Leaf(n, audio, chunkS)][1..]) == 0.0;
    }
  }

  /** `chunk_s` says the slice length to within one sample. */
  predicate Tracks(chunkS: real, len: nat) {
    -1.0 < chunkS * SAMPLE_RATE as real - len as real < 1.0
  }

  lemma TracksHalves(chunkS: real, len: nat)
    requires Tracks(chunkS, len)
    ensures Tracks(chunkS / 2.0, len / 2) && Tracks(chunkS / 2.0, len - len / 2)
    ensures FLOOR_SECONDS <= chunkS ==> 0 < len / 2
  {
    assert len == 2 * (len / 2) || len == 2 * (len / 2) + 1;
  }

  /** Every slice the adapter is asked about, answered or not, in call order. */
  ghost function Asked(a: Adapter, n: nat, audio: seq<Sample>, lang: Option<string>, chunkS: real): seq<Leaf>
    decreases Fuel(chunkS)
  {
    [Leaf(n, audio, chunkS)]
    + if !MustSplit(a(n, SplitRequest(audio, lang)), chunkS) then []
      else
        var mid := |audio| / 2;
        var left := TranscribeChunk(a, n + 1, audio[..mid], lang, chunkS / 2.0);
        Asked(a, n + 1, audio[..mid], lang, chunkS / 2.0)
        + if left.reply.Raise? then [] else Asked(a, left.next, audio[mid..], lang, chunkS / 2.0)
  }

  predicate Numbered(asked: seq<Leaf>, n: nat) {
    forall i :: 0 <= i < |asked| ==> asked[i].call == n + i
  }

  /** These are the adapter's calls, one slice a call and none left out; the leaves are
      the ones it answered. */
  lemma {:induction false} AskedAreTheCalls(a: Adapter, n: nat, audio: seq<Sample>, lang: Option<string>, chunkS: real,
                                            run: ChunkRun)
    requires run == TranscribeChunk(a, n, audio, lang, chunkS)
    ensures |Asked(a, n, audio, lang, chunkS)| == run.next - n
    ensures Numbered(Asked(a, n, audio, lang, chunkS), n)
    ensures forall l :: l in run.leaves
                        <==> l in Asked(a, n, audio, lang, chunkS) && a(l.call, SplitRequest(l.audio, lang)).Text?
    decreases Fuel(chunkS)
  {
    if MustSplit(a(n, SplitRequest(audio, lang)), chunkS) {
      var mid := |audio| / 2;
      var left := TranscribeChunk(a, n + 1, audio[..mid], lang, chunkS / 2.0);
      AskedAreTheCalls(a, n + 1, audio[..mid], lang, chunkS / 2.0, left);
      if left.reply.Text? {
        var right := TranscribeChunk(a, left.next, audio[mid..], lang, chunkS / 2.0);
        AskedAreTheCalls(a, left.next, audio[mid..], lang, chunkS / 2.0, right);
      }
    }
  }

  /** A slice of a chunk of `chunkS` seconds that was split at most `d` times on the way. */
  ghost predicate GoodSlice(l: Leaf, chunkS: real, d: nat) {
    && Tracks(l.chunkS, |l.audio|)
    && |l.audio| > 0
    && exists k: nat :: k <= d && l.chunkS * Pow2(k) as real == chunkS
  }

  lemma GoodSliceDeeper(l: Leaf, chunkS: real, d: nat)
    requires GoodSlice(l, chunkS / 2.0, d)
    ensures GoodSlice(l, chunkS, d + 1)
  {
    var k: nat :| k <= d && l.chunkS * Pow2(k) as real == chunkS / 2.0;
    assert Pow2(k + 1) as real == 2.0 * Pow2(k) as real;
    assert l.chunkS * Pow2(k + 1) as real == chunkS;
  }

  /** Every slice asked about, whether or not it or the chunk succeeds, is non-empty and
      its `chunk_s` is right to within one sample; a chunk shorter than 60 * 2^d s is
      split at most d times on the way to a slice. */
  lemma {:induction false} SlicesTrackLength(a: Adapter, n: nat, audio: seq<Sample>, lang: Option<string>, chunkS: real,
                                             d: nat)
    requires Tracks(chunkS, |audio|) && |audio| > 0
    requires chunkS < FLOOR_SECONDS * Pow2(d) as real
    ensures forall l | l in Asked(a, n, audio, lang, chunkS) :: GoodSlice(l, chunkS, d)
    decreases d
  {
    var asked := Asked(a, n, audio, lang, chunkS);
    WholeChunkIsGood(Leaf(n, audio, chunkS), d);
    if MustSplit(a(n, SplitRequest(audio, lang)), chunkS) {
      var mid := |audio| / 2;
      var left := TranscribeChunk(a, n + 1, audio[..mid], lang, chunkS / 2.0);
      TracksHalves(chunkS, |audio|);
      assert d != 0;
      SlicesTrackLength(a, n + 1, audio[..mid], lang, chunkS / 2.0, d - 1);
      SlicesTrackLength(a, left.next, audio[mid..], lang, chunkS / 2.0, d - 1);
      forall l | l in asked && l != Leaf(n, audio, chunkS) ensures GoodSlice(l, chunkS, d) {
        GoodSliceDeeper(l, chunkS, d - 1);
      }
    }
  }

  lemma WholeChunkIsGood(l: Leaf, d: nat)
    requires Tracks(l.chunkS, |l.audio|) && |l.audio| > 0
    ensures GoodSlice(l, l.chunkS, d)
  {
    assert Pow2(0) == 1;
  }

  // ---------------------------------------------------------------- success

  predicate RunsOutAbove(reply: Reply, len: nat, limit: nat) {
    reply.Raise? ==> IsOutOfMemory(reply.failure) && limit < len
  }

  /** The adapter fails only by running out of memory on slices longer than `limit` samples. */
  ghost predicate OnlyRunsOutAbove(a: Adapter, limit: nat) {
    forall n: nat, r: Request :: RunsOutAbove(a(n, r), |r.audio|, limit)
  }

  /** An adapter that can always take 60 s of audio never fails a chunk. */
  lemma {:induction false} ShortSlicesSuffice(a: Adapter, n: nat, audio: seq<Sample>, lang: Option<string>,
                                              chunkS: real)
    requires OnlyRunsOutAbove(a, FLOOR_SAMPLES)
    requires Tracks(chunkS, |audio|)
    ensures TranscribeChunk(a, n, audio, lang, chunkS).reply.Text?
    decreases Fuel(chunkS)
  {
    if MustSplit(a(n, SplitRequest(audio, lang)), chunkS) {
      var mid := |audio| / 2;
      var left := TranscribeChunk(a, n + 1, audio[..mid], lang, chunkS / 2.0);
      TracksHalves(chunkS, |audio|);
      ShortSlicesSuffice(a, n + 1, audio[..mid], lang, chunkS / 2.0);
      ShortSlicesSuffice(a, left.next, audio[mid..], lang, chunkS / 2.0);
    } else {
      assert RunsOutAbove(a(n, SplitRequest(audio, lang)), |audio|, FLOOR_SAMPLES);
    }
  }

  function MemoryHog(limit: nat): Adapter {
    (n: nat, r: Request) =>
      if |r.audio| > limit then Raise(RuntimeError("out of memory"))
      else Text(SttTranscription([], "en", 1.0, Seconds(|r.audio|)))
  }

  lemma MemoryHogRunsOut(limit: nat)
    ensures IsOutOfMemory(RuntimeError("out of memory"))
    ensures OnlyRunsOutAbove(MemoryHog(limit), limit)
  {
    assert MatchesAt("out of memory", 0, "out of memory");
  }

  /** One sample less is not enough: with an adapter that runs out on slices of 60 s
      or more, a chunk of 1,919,999 samples fails, because its right half is exactly
      60 s long while `chunk_s` has just dropped below the floor. */
  lemma SixtySecondSliceFails(audio: seq<Sample>)
    requires |audio| == 1_919_999
    ensures OnlyRunsOutAbove(MemoryHog(FLOOR_SAMPLES - 1), FLOOR_SAMPLES - 1)
    ensures TranscribeChunk(MemoryHog(FLOOR_SAMPLES - 1), 0, audio, None, Seconds(|audio|)).reply.Raise?
  {
    MemoryHogRunsOut(FLOOR_SAMPLES - 1);
    var mid := |audio| / 2;
    assert |audio[mid..]| == FLOOR_SAMPLES;
  }
}
