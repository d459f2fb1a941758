/** The utterances that come through one chunk, whatever is split on the way. */
module ChunkSplits {
  import opened Wrappers
  import opened Stt
  import opened ChunkRecursion

  // ---------------------------------------------------------------- picking

  ghost function Filter(segs: seq<SttSegment>, keep: SttSegment -> bool): seq<SttSegment> {
    if segs == [] then []
    else
      var last := segs[|segs| - 1];
      Filter(segs[..|segs| - 1], keep) + if keep(last) then [last] else []
  }

  lemma {:induction false} FilterSame(segs: seq<SttSegment>, p: SttSegment -> bool, q: SttSegment -> bool)
    requires forall u | u in segs :: p(u) == q(u)
    ensures Filter(segs, p) == Filter(segs, q)
  {
    if segs != [] {
      FilterSame(segs[..|segs| - 1], p, q);
    }
  }

  lemma {:induction false} FilterNone(segs: seq<SttSegment>, p: SttSegment -> bool)
    requires forall u | u in segs :: !p(u)
    ensures Filter(segs, p) == []
  {
    if segs != [] {
      FilterNone(segs[..|segs| - 1], p);
    }
  }

  /** Nothing that `q` picks comes before, or is, something that `p` picks. */
  predicate PicksBefore(segs: seq<SttSegment>, p: SttSegment -> bool, q: SttSegment -> bool) {
    forall i, j :: 0 <= i <= j < |segs| ==> !(q(segs[i]) && p(segs[j]))
  }

  lemma NoneOfTheOther(segs: seq<SttSegment>, p: SttSegment -> bool, q: SttSegment -> bool)
    requires segs != [] && PicksBefore(segs, p, q) && p(segs[|segs| - 1])
    ensures Filter(segs[..|segs| - 1], q) == [] && !q(segs[|segs| - 1])
  {
    FilterNone(segs[..|segs| - 1], q);
  }

  /** If everything `p` picks comes before everything `q` picks, picking first by `p`
      and then by `q` is picking by either. */
  lemma {:induction false} FilterUnion(segs: seq<SttSegment>, p: SttSegment -> bool, q: SttSegment -> bool,
                                       r: SttSegment -> bool)
    requires forall u | u in segs :: r(u) == (p(u) || q(u))
    requires PicksBefore(segs, p, q)
    ensures Filter(segs, p) + Filter(segs, q) == Filter(segs, r)
  {
    if segs != [] {
      FilterUnion(segs[..|segs| - 1], p, q, r);
      if p(segs[|segs| - 1]) {
        NoneOfTheOther(segs, p, q);
      }
    }
  }

  lemma {:induction false} FilterAll(segs: seq<SttSegment>, p: SttSegment -> bool)
    requires forall u | u in segs :: p(u)
    ensures Filter(segs, p) == segs
  {
    if segs != [] {
      var n := |segs| - 1;
      FilterAll(segs[..n], p);
      assert Filter(segs, p) == segs[..n] + [segs[n]];
    }
  }

  // ---------------------------------------------------------------- utterances

  /** The utterances of a file, in absolute time: in order, disjoint, none empty, all inside. */
  predicate Utterances(ref: seq<SttSegment>, total: nat) {
    && (forall u | u in ref :: 0.0 <= u.startS < u.endS <= Seconds(total))
    && (forall i, j :: 0 <= i < j < |ref| ==> ref[i].endS <= ref[j].startS)
  }

  /** The utterance lies wholly in the `len` samples from sample `from` on. */
  predicate InSlice(u: SttSegment, from: nat, len: nat) {
    Seconds(from) <= u.startS && u.endS <= Seconds(from + len)
  }

  /** Some of the positions fall strictly inside the utterance. */
  predicate CutInside(points: set<nat>, u: SttSegment) {
    exists s | s in points :: u.startS < Seconds(s) < u.endS
  }

  predicate Whole(points: set<nat>, from: nat, len: nat, u: SttSegment) {
    InSlice(u, from, len) && !CutInside(points, u)
  }

  /** Where the audio of a chunk that starts at sample `from` is split, at any depth. */
  ghost function SplitPoints(a: Adapter, n: nat, audio: seq<Sample>, lang: Option<string>, chunkS: real,
                             from: nat): set<nat>
    decreases Fuel(chunkS)
  {
    if !MustSplit(a(n, SplitRequest(audio, lang)), chunkS) then {}
    else
      var mid := |audio| / 2;
      var left := TranscribeChunk(a, n + 1, audio[..mid], lang, chunkS / 2.0);
      SplitPoints(a, n + 1, audio[..mid], lang, chunkS / 2.0, from)
      + {from + mid}
      + SplitPoints(a, left.next, audio[mid..], lang, chunkS / 2.0, from + mid)
  }

  /** Every slice that is not split is answered with the utterances that lie wholly
      inside it, in slice time. */
  ghost predicate HeardSlices(a: Adapter, n: nat, audio: seq<Sample>, lang: Option<string>, chunkS: real, from: nat,
                              ref: seq<SttSegment>)
    decreases Fuel(chunkS)
  {
    var reply := a(n, SplitRequest(audio, lang));
    if !MustSplit(reply, chunkS) then
      && reply.Text?
      && reply.stt.segments == Shift(Filter(ref, u => InSlice(u, from, |audio|)), -Seconds(from))
    else
      var mid := |audio| / 2;
      var left := TranscribeChunk(a, n + 1, audio[..mid], lang, chunkS / 2.0);
      && HeardSlices(a, n + 1, audio[..mid], lang, chunkS / 2.0, from, ref)
      && HeardSlices(a, left.next, audio[mid..], lang, chunkS / 2.0, from + mid, ref)
  }

  lemma {:induction false} SplitPointsInside(a: Adapter, n: nat, audio: seq<Sample>, lang: Option<string>, chunkS: real,
                                             from: nat)
    ensures forall s | s in SplitPoints(a, n, audio, lang, chunkS, from) :: from <= s <= from + |audio|
    decreases Fuel(chunkS)
  {
    if MustSplit(a(n, SplitRequest(audio, lang)), chunkS) {
      var mid := |audio| / 2;
      var left := TranscribeChunk(a, n + 1, audio[..mid], lang, chunkS / 2.0);
      SplitPointsInside(a, n + 1, audio[..mid], lang, chunkS / 2.0, from);
      SplitPointsInside(a, left.next, audio[mid..], lang, chunkS / 2.0, from + mid);
    }
  }

  lemma HalvesPick(x: set<nat>, y: set<nat>, from: nat, mid: nat, len: nat, u: SttSegment)
    requires mid <= len && u.startS < u.endS
    requires (forall s | s in x :: from <= s <= from + mid) && (forall s | s in y :: from + mid <= s <= from + len)
    ensures Whole(x + {from + mid} + y, from, len, u)
            <==> Whole(x, from, mid, u) || Whole(y, from + mid, len - mid, u)
  {
    assert CutInside(x + {from + mid} + y, u)
           <==> CutInside(x, u) || CutInside(y, u) || u.startS < Seconds(from + mid) < u.endS;
  }

  lemma HalvesJoin(ref: seq<SttSegment>, total: nat, x: set<nat>, y: set<nat>, from: nat, mid: nat, len: nat)
    requires Utterances(ref, total) && mid <= len
    requires (forall s | s in x :: from <= s <= from + mid) && (forall s | s in y :: from + mid <= s <= from + len)
    ensures Filter(ref, u => Whole(x, from, mid, u)) + Filter(ref, u => Whole(y, from + mid, len - mid, u))
            == Filter(ref, u => Whole(x + {from + mid} + y, from, len, u))
  {
    forall u | u in ref
      ensures Whole(x + {from + mid} + y, from, len, u)
              == (Whole(x, from, mid, u) || Whole(y, from + mid, len - mid, u))
    {
      HalvesPick(x, y, from, mid, len, u);
    }
    FilterUnion(ref, u => Whole(x, from, mid, u), u => Whole(y, from + mid, len - mid, u),
                u => Whole(x + {from + mid} + y, from, len, u));
  }

  lemma JoinBack(left: SttTranscription, right: SttTranscription, p: seq<SttSegment>, q: seq<SttSegment>, mid: nat,
                 from: nat)
    requires left.segments == Shift(p, -Seconds(from)) && right.segments == Shift(q, -Seconds(from + mid))
    ensures Join(left, right, Seconds(mid)).segments == Shift(p + q, -Seconds(from))
  {
    assert -Seconds(from + mid) + Seconds(mid) == -Seconds(from);
    ShiftShift(q, -Seconds(from + mid), Seconds(mid));
    ShiftConcat(p, q, -Seconds(from));
  }

  /** A run that brought exactly the utterances inside its slice that no split cuts, in
      order and in slice time. */
  ghost predicate Hears(run: ChunkRun, points: set<nat>, from: nat, len: nat, ref: seq<SttSegment>) {
    && run.reply.Text?
    && run.reply.stt.segments == Shift(Filter(ref, u => Whole(points, from, len, u)), -Seconds(from))
  }

  lemma HalvesHear(left: ChunkRun, right: ChunkRun, x: set<nat>, y: set<nat>, from: nat, mid: nat, len: nat,
                   ref: seq<SttSegment>, total: nat)
    requires Utterances(ref, total) && mid <= len
    requires (forall s | s in x :: from <= s <= from + mid) && (forall s | s in y :: from + mid <= s <= from + len)
    requires Hears(left, x, from, mid, ref) && Hears(right, y, from + mid, len - mid, ref)
    ensures Hears(Append(left, right, mid), x + {from + mid} + y, from, len, ref)
  {
    HalvesJoin(ref, total, x, y, from, mid, len);
    JoinBack(left.reply.stt, right.reply.stt, Filter(ref, u => Whole(x, from, mid, u)),
             Filter(ref, u => Whole(y, from + mid, len - mid, u)), mid, from);
  }

  lemma SliceHears(run: ChunkRun, from: nat, len: nat, ref: seq<SttSegment>)
    requires run.reply.Text?
    requires run.reply.stt.segments == Shift(Filter(ref, u => InSlice(u, from, len)), -Seconds(from))
    ensures Hears(run, {}, from, len, ref)
  {
    FilterSame(ref, u => InSlice(u, from, len), u => Whole({}, from, len, u));
  }

  lemma HeardHalves(a: Adapter, n: nat, audio: seq<Sample>, lang: Option<string>, chunkS: real, from: nat,
                    ref: seq<SttSegment>, mid: nat, left: ChunkRun)
    requires MustSplit(a(n, SplitRequest(audio, lang)), chunkS) && mid == |audio| / 2
    requires left == TranscribeChunk(a, n + 1, audio[..mid], lang, chunkS / 2.0)
    requires HeardSlices(a, n, audio, lang, chunkS, from, ref)
    ensures HeardSlices(a, n + 1, audio[..mid], lang, chunkS / 2.0, from, ref)
    ensures HeardSlices(a, left.next, audio[mid..], lang, chunkS / 2.0, from + mid, ref)
  {
  }

  lemma PointsOfHalves(a: Adapter, n: nat, audio: seq<Sample>, lang: Option<string>, chunkS: real, from: nat, mid: nat,
                       left: ChunkRun, x: set<nat>, y: set<nat>)
    requires MustSplit(a(n, SplitRequest(audio, lang)), chunkS) && mid == |audio| / 2
    requires left == TranscribeChunk(a, n + 1, audio[..mid], lang, chunkS / 2.0)
    requires x == SplitPoints(a, n + 1, audio[..mid], lang, chunkS / 2.0, from)
    requires y == SplitPoints(a, left.next, audio[mid..], lang, chunkS / 2.0, from + mid)
    ensures SplitPoints(a, n, audio, lang, chunkS, from) == x + {from + mid} + y
    ensures (forall s | s in x :: from <= s <= from + mid)
    ensures (forall s | s in y :: from + mid <= s <= from + |audio|)
  {
    SplitPointsInside(a, n + 1, audio[..mid], lang, chunkS / 2.0, from);
    SplitPointsInside(a, left.next, audio[mid..], lang, chunkS / 2.0, from + mid);
  }

  lemma JoinedRun(a: Adapter, n: nat, audio: seq<Sample>, lang: Option<string>, chunkS: real,
                  mid: nat, left: ChunkRun, right: ChunkRun)
    requires MustSplit(a(n, SplitRequest(audio, lang)), chunkS) && mid == |audio| / 2
    requires left == TranscribeChunk(a, n + 1, audio[..mid], lang, chunkS / 2.0) && left.reply.Text?
    requires right == TranscribeChunk(a, left.next, audio[mid..], lang, chunkS / 2.0)
    ensures TranscribeChunk(a, n, audio, lang, chunkS) == Append(left, right, mid)
  {
  }

  /** A chunk whose slices are heard succeeds with exactly the utterances inside it that
      no split cuts. */
  lemma {:induction false} ChunkHears(a: Adapter, n: nat, audio: seq<Sample>, lang: Option<string>, chunkS: real,
                                      from: nat, ref: seq<SttSegment>, total: nat, run: ChunkRun, points: set<nat>)
    requires Utterances(ref, total) && HeardSlices(a, n, audio, lang, chunkS, from, ref)
    requires run == TranscribeChunk(a, n, audio, lang, chunkS)
    requires points == SplitPoints(a, n, audio, lang, chunkS, from)
    ensures Hears(run, points, from, |audio|, ref)
    decreases Fuel(chunkS)
  {
    if MustSplit(a(n, SplitRequest(audio, lang)), chunkS) {
      var mid, half := |audio| / 2, chunkS / 2.0;
      var left := TranscribeChunk(a, n + 1, audio[..mid], lang, half);
      var right := TranscribeChunk(a, left.next, audio[mid..], lang, half);
      var x := SplitPoints(a, n + 1, audio[..mid], lang, half, from);
      var y := SplitPoints(a, left.next, audio[mid..], lang, half, from + mid);
      HeardHalves(a, n, audio, lang, chunkS, from, ref, mid, left);
      ChunkHears(a, n + 1, audio[..mid], lang, half, from, ref, total, left, x);
      ChunkHears(a, left.next, audio[mid..], lang, half, from + mid, ref, total, right, y);
      PointsOfHalves(a, n, audio, lang, chunkS, from, mid, left, x, y);
      JoinedRun(a, n, audio, lang, chunkS, mid, left, right);
      HalvesHear(left, right, x, y, from, mid, |audio|, ref, total);
    } else {
      SliceHears(run, from, |audio|, ref);
    }
  }
}
