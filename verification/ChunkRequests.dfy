/** What the adapter is asked, and what of its answers the transcript carries. */
module ChunkRequests {
  import opened Wrappers
  import opened Stt
  import opened ChunkRecursion
  import opened Chunker
  import opened ChunkWindows

  /** The adapters answer alike about every stretch of the audio, in the language `lang`
      and without the previous text. */
  ghost predicate AgreeOnStretches(a: Adapter, b: Adapter, audio: seq<Sample>, lang: Option<string>) {
    forall n: nat, i: nat, j: nat | i <= j <= |audio| ::
      a(n, Request(audio[i..j], lang, false)) == b(n, Request(audio[i..j], lang, false))
  }

  lemma StretchOfStretch(audio: seq<Sample>, i: nat, j: nat, k: nat, l: nat)
    requires i <= j <= |audio| && k <= l <= j - i
    ensures audio[i..j][k..l] == audio[i + k..i + l]
  {
    forall x | 0 <= x < l - k ensures audio[i..j][k..l][x] == audio[i + k..i + l][x] {
      assert audio[i..j][k..l][x] == audio[i..j][k + x] == audio[i + (k + x)];
    }
  }

  lemma StretchesOfStretch(a: Adapter, b: Adapter, audio: seq<Sample>, lang: Option<string>, i: nat, j: nat)
    requires i <= j <= |audio| && AgreeOnStretches(a, b, audio, lang)
    ensures AgreeOnStretches(a, b, audio[i..j], lang)
  {
    forall n: nat, k: nat, l: nat | k <= l <= |audio[i..j]|
      ensures a(n, Request(audio[i..j][k..l], lang, false)) == b(n, Request(audio[i..j][k..l], lang, false))
    {
      StretchOfStretch(audio, i, j, k, l);
    }
  }

  /** Nothing but these requests has a say in a chunk: adapters that agree on them bring
      the same segments in the same calls. */
  lemma {:induction false} ChunkAsksStretches(a: Adapter, b: Adapter, n: nat, audio: seq<Sample>, lang: Option<string>,
                                              chunkS: real)
    requires AgreeOnStretches(a, b, audio, lang)
    ensures TranscribeChunk(a, n, audio, lang, chunkS) == TranscribeChunk(b, n, audio, lang, chunkS)
    decreases Fuel(chunkS)
  {
    assert audio[0..|audio|] == audio;
    assert a(n, Request(audio[0..|audio|], lang, false)) == b(n, Request(audio[0..|audio|], lang, false));
    if MustSplit(a(n, SplitRequest(audio, lang)), chunkS) {
      var mid := |audio| / 2;
      assert audio[..mid] == audio[0..mid] && audio[mid..] == audio[mid..|audio|];
      StretchesOfStretch(a, b, audio, lang, 0, mid);
      StretchesOfStretch(a, b, audio, lang, mid, |audio|);
      var left := TranscribeChunk(a, n + 1, audio[..mid], lang, chunkS / 2.0);
      ChunkAsksStretches(a, b, n + 1, audio[..mid], lang, chunkS / 2.0);
      ChunkAsksStretches(a, b, left.next, audio[mid..], lang, chunkS / 2.0);
    }
  }

  lemma WindowAsksStretches(t: Task, u: Task, st: Scan, k: nat)
    requires u == t.(a := u.a) && st.Going? && WindowStart(k) < |t.audio|
    requires AgreeOnStretches(t.a, u.a, t.audio, t.lang)
    ensures ScanWindow(t, st, k) == ScanWindow(u, st, k)
  {
    var chunk := Window(t.audio, k);
    StretchesOfStretch(t.a, u.a, t.audio, t.lang, WindowStart(k), WindowEnd(|t.audio|, k));
    ChunkAsksStretches(t.a, u.a, st.calls, chunk, t.lang, Seconds(|chunk|));
  }

  lemma NextScanAsksStretches(t: Task, u: Task, k: nat)
    requires u == t.(a := u.a) && k < WindowCount(|t.audio|) && AgreeOnStretches(t.a, u.a, t.audio, t.lang)
    requires Scanned(t, k) == Scanned(u, k)
    ensures Scanned(t, k + 1) == Scanned(u, k + 1)
  {
    WindowCountIsTotalChunks(|t.audio|);
    if Scanned(t, k).Going? {
      NextWindow(t, k);
      NextWindow(u, k);
      WindowAsksStretches(t, u, Scanned(t, k), k);
    }
  }

  lemma {:induction false} ScanAsksStretches(t: Task, u: Task, n: nat)
    requires u == t.(a := u.a) && n <= WindowCount(|t.audio|) && AgreeOnStretches(t.a, u.a, t.audio, t.lang)
    ensures Scanned(t, n) == Scanned(u, n)
    decreases n
  {
    if n != 0 {
      ScanAsksStretches(t, u, n - 1);
      NextScanAsksStretches(t, u, n - 1);
    }
  }

  /** The language every request of a file carries: the one asked for, or, for a file of
      more than 30 minutes, the one detected on its first 30 seconds. */
  function RequestLanguage(t: Task, detect: seq<Sample> -> Result<string, Failure>): Option<string> {
    if t.lang.Some? || Short(t.audio) then t.lang
    else
      match detect(t.audio[..30 * 16_000])
      case Ok(lang) => Some(lang)
      case Err(_) => None
  }

  /** What a file asks of the adapter: a short one the whole audio, once, with the previous
      text; a long one stretches of it without, all in the same language. Adapters that
      agree on that give the same outcome, progress and number of calls. */
  lemma FileAsks(t: Task, b: Adapter, detect: seq<Sample> -> Result<string, Failure>)
    requires var lang := RequestLanguage(t, detect);
             if |t.audio| <= 1800 * 16_000 then
               t.a(0, Request(t.audio, lang, true)) == b(0, Request(t.audio, lang, true))
             else AgreeOnStretches(t.a, b, t.audio, lang)
    ensures Transcription(t, detect) == Transcription(t.(a := b), detect)
  {
    ShortMeans(t.audio);
    if !Short(t.audio) {
      var lang := RequestLanguage(t, detect);
      ScanAsksStretches(t.(lang := lang), t.(lang := lang, a := b), WindowCount(|t.audio|));
      assert t.(lang := lang).(a := b) == t.(a := b).(lang := lang);
    }
  }

  lemma ShortMeans(audio: seq<Sample>)
    ensures Short(audio) <==> |audio| <= 1800 * 16_000
  {
  }

  /** The recursion's run is taken over: its failure ends the scan, or its segments that
      do not begin before `previous` are added, moved to `from`. */
  predicate TakesOver(next: Scan, st: Scan, run: ChunkRun, from: real, previous: real)
    requires st.Going?
  {
    if run.reply.Raise? then next == Halted(FileRun(Failed(run.reply.failure), st.progress, run.next))
    else
      && next.Going? && next.calls == run.next
      && next.merged == st.merged + Kept(run.reply.stt.segments, from, previous)
  }

  /** What one window does: the samples from `k` times 870 s on, 900 s of them or up to the
      end of the audio, go through the recursion, and of what comes back the segments
      that begin before the end of the window before are left out. */
  lemma WindowIsTranscribed(t: Task, st: Scan, k: nat, from: nat, to: nat, previous: nat)
    requires st.Going? && !t.cancelled(k) && WindowStart(k) < |t.audio|
    requires IsWindow(|t.audio|, k, from, to, previous)
    ensures from < to <= |t.audio|
    ensures TakesOver(ScanWindow(t, st, k), st,
                      TranscribeChunk(t.a, st.calls, t.audio[from..to], t.lang, (to - from) as real / 16_000.0),
                      from as real / 16_000.0, previous as real / 16_000.0)
  {
    WindowInSeconds(t.audio, k, from, to, previous);
  }

  function Least(x: nat, y: nat): nat {
    if x <= y then x else y
  }

  /** Window `k` runs from sample `from` to sample `to`, and the one before it to `previous`. */
  predicate IsWindow(total: nat, k: nat, from: nat, to: nat, previous: nat) {
    && from == k * 870 * 16_000
    && to == Least(from + 900 * 16_000, total)
    && previous == if k == 0 then 0 else Least(from + 30 * 16_000, total)
  }

  lemma WindowInSeconds(audio: seq<Sample>, k: nat, from: nat, to: nat, previous: nat)
    requires WindowStart(k) < |audio| && IsWindow(|audio|, k, from, to, previous)
    ensures from < to <= |audio| && Window(audio, k) == audio[from..to]
    ensures Seconds(WindowStart(k)) == from as real / 16_000.0
    ensures PrevEnd(|audio|, k) == previous as real / 16_000.0
  {
  }

  /** A finished transcript carries the job's id, the file's duration, and the language
      asked for, or else the one the short file's answer names or detection found. */
  lemma TranscriptFields(t: Task, detect: seq<Sample> -> Result<string, Failure>)
    requires Transcription(t, detect).outcome.Finished?
    ensures var transcript := Transcription(t, detect).outcome.transcript;
            && transcript.jobId == t.jobId
            && transcript.durationS == Some(|t.audio| as real / 16_000.0)
            && (t.lang.Some? ==> transcript.language == t.lang)
            && (t.lang.None? && |t.audio| <= 1800 * 16_000 ==>
                  var reply := t.a(0, Request(t.audio, None, true));
                  reply.Text? && transcript.language == Some(reply.stt.language))
            && (t.lang.None? && |t.audio| > 1800 * 16_000 ==>
                  var found := detect(t.audio[..30 * 16_000]);
                  found.Ok? && transcript.language == Some(found.value))
  {
    ShortMeans(t.audio);
    if !Short(t.audio) {
      WindowedFields(t.(lang := RequestLanguage(t, detect)));
    }
  }

  lemma WindowedFields(t: Task)
    requires Windowed(t).outcome.Finished?
    ensures var transcript := Windowed(t).outcome.transcript;
            transcript.jobId == t.jobId && transcript.durationS == Some(Seconds(|t.audio|))
                && transcript.language == t.lang
  {
    ProgressCountsUp(t, WindowCount(|t.audio|));
  }

  /** A short file is one call and one progress event, or, with the flag up, neither;
      the answer's segments are taken over one by one. */
  lemma ShortFile(t: Task, detect: seq<Sample> -> Result<string, Failure>)
    requires |t.audio| <= 1800 * 16_000
    ensures var run := Transcription(t, detect);
            var reply := t.a(0, Request(t.audio, t.lang, true));
            if t.cancelled(0) then run == FileRun(Cancelled(t.jobId), [], 0)
            else if reply.Raise? then run == FileRun(Failed(reply.failure), [], 1)
            else
              && run.calls == 1 && run.progress == [ChunkProgress(1, 1, 0.0)] && run.outcome.Finished?
              && var segments := run.outcome.transcript.segments;
                 && |segments| == |reply.stt.segments|
                 && forall i :: 0 <= i < |segments| ==>
                      segments[i] == TranscriptSegment(reply.stt.segments[i].startS, reply.stt.segments[i].endS,
                                                       reply.stt.segments[i].text, None,
                                                           reply.stt.segments[i].confidence)
  {
    ShortMeans(t.audio);
  }

  // ---------------------------------------------------------------- failures

  /** Some call of the adapter about a stretch of the audio raised exactly this. */
  ghost predicate Raised(a: Adapter, audio: seq<Sample>, lang: Option<string>, f: Failure) {
    exists n: nat, i: nat, j: nat :: i <= j <= |audio| && a(n, Request(audio[i..j], lang, false)) == Raise(f)
  }

  lemma RaisedInStretch(a: Adapter, audio: seq<Sample>, lang: Option<string>, f: Failure, i: nat, j: nat)
    requires i <= j <= |audio| && Raised(a, audio[i..j], lang, f)
    ensures Raised(a, audio, lang, f)
  {
    var n: nat, k: nat, l: nat :| k <= l <= |audio[i..j]| && a(n, Request(audio[i..j][k..l], lang, false)) == Raise(f);
    StretchOfStretch(audio, i, j, k, l);
    assert a(n, Request(audio[i + k..i + l], lang, false)) == Raise(f);
  }

  lemma {:induction false} ChunkFailureWasRaised(a: Adapter, n: nat, audio: seq<Sample>, lang: Option<string>,
                                                 chunkS: real)
    requires TranscribeChunk(a, n, audio, lang, chunkS).reply.Raise?
    ensures Raised(a, audio, lang, TranscribeChunk(a, n, audio, lang, chunkS).reply.failure)
    decreases Fuel(chunkS)
  {
    assert audio[0..|audio|] == audio;
    if MustSplit(a(n, SplitRequest(audio, lang)), chunkS) {
      var mid := |audio| / 2;
      assert audio[..mid] == audio[0..mid] && audio[mid..] == audio[mid..|audio|];
      var left := TranscribeChunk(a, n + 1, audio[..mid], lang, chunkS / 2.0);
      if left.reply.Raise? {
        ChunkFailureWasRaised(a, n + 1, audio[..mid], lang, chunkS / 2.0);
        RaisedInStretch(a, audio, lang, left.reply.failure, 0, mid);
      } else {
        var right := TranscribeChunk(a, left.next, audio[mid..], lang, chunkS / 2.0);
        ChunkFailureWasRaised(a, left.next, audio[mid..], lang, chunkS / 2.0);
        RaisedInStretch(a, audio, lang, right.reply.failure, mid, |audio|);
      }
    } else {
      assert a(n, Request(audio[0..|audio|], lang, false)).Raise?;
    }
  }

  lemma {:induction false} ScanFailureWasRaised(t: Task, k: nat)
    requires k <= WindowCount(|t.audio|) && Scanned(t, k).Halted? && Scanned(t, k).run.outcome.Failed?
    ensures Raised(t.a, t.audio, t.lang, Scanned(t, k).run.outcome.failure)
    decreases k
  {
    WindowCountIsTotalChunks(|t.audio|);
    if Scanned(t, k - 1).Halted? {
      ScanFailureWasRaised(t, k - 1);
    } else {
      var chunk := Window(t.audio, k - 1);
      ChunkFailureWasRaised(t.a, Scanned(t, k - 1).calls, chunk, t.lang, Seconds(|chunk|));
      RaisedInStretch(t.a, t.audio, t.lang, Scanned(t, k).run.outcome.failure, WindowStart(k - 1),
                      WindowEnd(|t.audio|, k - 1));
    }
  }

  /** A failure is one that the adapter or the language detection raised, unchanged. */
  lemma FailureWasRaised(t: Task, detect: seq<Sample> -> Result<string, Failure>)
    requires Transcription(t, detect).outcome.Failed?
    ensures var f := Transcription(t, detect).outcome.failure;
            if |t.audio| <= 1800 * 16_000 then t.a(0, Request(t.audio, t.lang, true)) == Raise(f)
            else if RequestLanguage(t, detect).None? then detect(t.audio[..30 * 16_000]) == Err(f)
            else Raised(t.a, t.audio, RequestLanguage(t, detect), f)
  {
    ShortMeans(t.audio);
    if !Short(t.audio) && RequestLanguage(t, detect).Some? {
      ScanFailureWasRaised(t.(lang := RequestLanguage(t, detect)), WindowCount(|t.audio|));
      assert t.lang.Some? ==> t.(lang := RequestLanguage(t, detect)) == t;
    }
  }
}
