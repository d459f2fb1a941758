/** The speech-to-text seam: what the chunker sees of an adapter, and the
    transcript it produces. Times are exact reals in seconds. */
module Stt {
  import opened Wrappers

  const SAMPLE_RATE := 16000

  type Sample = real

  datatype SttSegment =
    SttSegment(startS: real, endS: real, text: string, confidence: Option<real>)

  datatype SttTranscription =
    SttTranscription(segments: seq<SttSegment>, language: string, languageProbability: real, duration: real)

  datatype TranscriptSegment =
    TranscriptSegment(startS: real, endS: real, text: string, speaker: Option<string>, confidence: Option<real>)

  datatype Transcript =
    Transcript(jobId: string, language: Option<string>, durationS: Option<real>, segments: seq<TranscriptSegment>)

  datatype ChunkProgress =
    ChunkProgress(chunksDone: nat, chunksTotal: nat, chunkStartS: real)

  /** One `transcribe()` call. The voice filter is on in every call the chunker makes. */
  datatype Request =
    Request(audio: seq<Sample>, language: Option<string>, conditionOnPrevious: bool)

  datatype Failure = RuntimeError(message: string) | OtherError(message: string)

  datatype Reply = Text(stt: SttTranscription) | Raise(failure: Failure)

  /** An adapter answers its n-th `transcribe()` call. Numbering the calls lets the
      same audio succeed once and run out of memory another time. */
  type Adapter = (nat, Request) -> Reply

  /** The duration of `n` samples. */
  function Seconds(n: int): real {
    n as real / SAMPLE_RATE as real
  }

  function LowerChar(c: char): char {
    if 'A' <= c <= 'Z' then c - 'A' + 'a' else c
  }

  predicate MatchesAt(message: string, i: nat, pattern: string) {
    && i + |pattern| <= |message|
    && forall k :: 0 <= k < |pattern| ==> LowerChar(message[i + k]) == pattern[k]
  }

  /** The case-insensitive search for "out of memory" in a RuntimeError's text. */
  predicate IsOutOfMemory(f: Failure) {
    && f.RuntimeError?
    && exists i :: 0 <= i <= |f.message| && MatchesAt(f.message, i, "out of memory")
  }

  /** The same text up to the case of its letters. */
  predicate SpelledAlike(s: string, lower: string) {
    && |s| == |lower|
    && forall k :: 0 <= k < |s| ==> s[k] == lower[k] || ('A' <= s[k] <= 'Z' && s[k] as int + 32 == lower[k] as int)
  }

  predicate SaysOutOfMemory(message: string, i: nat) {
    i + 13 <= |message| && SpelledAlike(message[i..i + 13], "out of memory")
  }

  lemma SaysIffMatches(message: string, i: nat)
    ensures SaysOutOfMemory(message, i) <==> MatchesAt(message, i, "out of memory")
  {
    if i + 13 <= |message| {
      var words := message[i..i + 13];
      forall k | 0 <= k < |words| ensures words[k] == message[i + k] {
      }
      assert SaysOutOfMemory(message, i) ==> forall k :: 0 <= k < |words| ==> LowerChar(words[k]) == "out of memory"[k];
    }
  }

  /** Which failures make the chunker split: a RuntimeError in whose text the three words
      stand somewhere, in capitals or not; no other exception, whatever it says. */
  lemma OutOfMemoryIff(f: Failure)
    ensures IsOutOfMemory(f) <==> f.RuntimeError? && exists i: nat :: SaysOutOfMemory(f.message, i)
  {
    forall i: nat ensures SaysOutOfMemory(f.message, i) <==> MatchesAt(f.message, i, "out of memory") {
      SaysIffMatches(f.message, i);
    }
  }

  /** Moves every segment `d` seconds later; texts and confidences are kept. */
  function Shift(segs: seq<SttSegment>, d: real): (r: seq<SttSegment>)
    ensures |r| == |segs|
    ensures forall i :: 0 <= i < |segs| ==>
                          r[i] == segs[i].(startS := segs[i].startS + d, endS := segs[i].endS + d)
  {
    seq(|segs|, i requires 0 <= i < |segs| =>
      segs[i].(startS := segs[i].startS + d, endS := segs[i].endS + d))
  }

  lemma ShiftShift(segs: seq<SttSegment>, d: real, e: real)
    ensures Shift(Shift(segs, d), e) == Shift(segs, d + e)
  {
  }

  lemma ShiftConcat(x: seq<SttSegment>, y: seq<SttSegment>, d: real)
    ensures Shift(x + y, d) == Shift(x, d) + Shift(y, d)
  {
  }
}
