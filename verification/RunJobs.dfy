/** A whole call of `run_job` on the row and folder of its job, and why it is a run of
    the protocol. */
module RunJobs {
  import opened Wrappers
  import opened Stt
  import opened Jobs
  import opened Resume
  import opened Protocol
  import opened ProtocolInvariant
  import opened SoloRun
  import Chunker
  import ChunkExact
  import ChunkOrder
  import ChunkRequests
  import ChunkSplits
  import ChunkWindows

  /** How the try block of `run_job` was left. */
  datatype Exit = Returned | Raised | CancelledOut

  /** What a run of job `jobId` meets outside the stores: the adapter, the decoded audio,
      the language detection, the cancel flag, the clock, the text of an error, and what a
      folder delete leaves. */
  datatype Around =
    Around(jobId: JobId, adapter: Adapter, audio: seq<Sample>, detect: seq<Sample> -> Result<string, Failure>,
           cancelled: nat -> bool, now: string, error: string, rest: Folder)
  {
    /** The transcriber's work: no language is asked for. */
    function Work(): Chunker.Task {
      Chunker.Task(adapter, audio, None, jobId, cancelled)
    }

    /** What the transcriber makes of it. */
    function Transcription(): Chunker.FileRun {
      Chunker.Transcription(Work(), detect)
    }
  }

  function PcOf(exit: Exit): RunPc {
    match exit
    case Returned => Finishing
    case Raised => Raising
    case CancelledOut => CancelMarking
  }

  function ResultOf(run: Chunker.FileRun): TranscribeResult {
    match run.outcome
    case Finished(transcript) => TranscribeResult.Transcribed(transcript)
    case Cancelled(_) => SawCancel
    case Failed(_) => Broke
  }

  function InputOf(around: Around): Input {
    Input(around.now, ResultOf(around.Transcription()), around.error, around.rest)
  }

  /** A claimed job about to run as process 0; `flagged` is what the run will find in
      its cancel flag. */
  function StartOf(s: Stores, flagged: bool): Job {
    Job(s.row, s.folder, map[0 := Runner(Claimed, flagged)], None, true, Up)
  }

  function EndOf(s: Stores): Job {
    Job(s.row, s.folder, map[], None, true, Up)
  }

  /** The row and folder of one job. */
  datatype Stores = Stores(row: Option<Row>, folder: Folder)

  function UpdatedStores(s: Stores, stage: Stage, patch: ManifestPatch, now: string): Stores {
    if s.folder.manifest.None? then s
    else
      var next := Advance(s.folder.manifest.value, stage, patch, now);
      Stores(ProjectRow(s.row, next), s.folder.(manifest := Some(next)))
  }

  function SavedStores(s: Stores, t: Transcript): Stores {
    s.(folder := s.folder.(transcript := Parsed(t)))
  }

  /** The transcript goes to disk before its stage is recorded. */
  function RecordedStores(s: Stores, t: Transcript, now: string): Stores {
    var updated := UpdatedStores(SavedStores(s, t), Stage.Transcribed, TranscribedPatch(t), now);
    UpdatedStores(updated, Stage.Done, NO_PATCH, now)
  }

  /** The transcribing part of the try block. */
  function TranscribeStores(s: Stores, m: Manifest, around: Around): (Stores, Exit) {
    if m.sourcePath.None? then (s, Raised)
    else
      match InputOf(around).result
      case SawCancel => (s, CancelledOut)
      case Broke => (s, Raised)
      case Transcribed(t) => (RecordedStores(s, t, around.now), Returned)
  }

  /** The try block. */
  function TryStores(media: set<string>, s: Stores, around: Around, flagged: bool): (Stores, Exit) {
    if s.folder.manifest.None? then (s, Raised)
    else
      var m := s.folder.manifest.value;
      var point := InferResumePoint(m, s.folder, media);
      if point.None? then (s, Returned)
      else if !IsStageComplete(Stage.Ingested, m, s.folder, media) then (s, Raised)
      else if !s.folder.transcript.Parsed? then TranscribeStores(s, m, around)
      else if point != Some(Stage.Done) then (s, Returned)
      else if flagged then (s, CancelledOut)
      else (UpdatedStores(s, Stage.Done, NO_PATCH, around.now), Returned)
  }

  /** The handlers of the try block. */
  function Handled(s: Stores, exit: Exit, around: Around): Stores {
    match exit
    case Returned => s
    case Raised => s.(row := FailRow(s.row, around.error))
    case CancelledOut => if s.row.None? then s else Stores(CancelRow(s.row), around.rest)
  }

  /** The try block and its two handlers. */
  function RunStores(media: set<string>, s: Stores, around: Around, flagged: bool): Stores {
    var (t, exit) := TryStores(media, s, around, flagged);
    Handled(t, exit, around)
  }

  /** After `n` steps the run stands at `pc` with these stores. */
  predicate Stands(media: set<string>, start: Job, around: Around, n: nat, s: Stores, pc: RunPc, flagged: bool) {
    Reaches(media, start, 0, Always(InputOf(around)), n, Holding(start, s), pc, flagged)
  }

  function Holding(start: Job, s: Stores): Job {
    start.(row := s.row, folder := s.folder, running := Some(0))
  }

  lemma Advances(media: set<string>, start: Job, around: Around, n: nat, s: Stores, pc: RunPc, flagged: bool,
                 t: Stores, to: RunPc)
    returns (k: nat)
    requires Stands(media, start, around, n, s, pc, flagged) && !pc.Finishing?
    requires RunMove(media, At(Holding(start, s), 0, pc, flagged), 0, pc, flagged, InputOf(around))
             == Some(Move(t.row, t.folder, Some(0), to))
    ensures Stands(media, start, around, k, t, to, flagged)
  {
    SoloStep(media, start, 0, Always(InputOf(around)), n, Holding(start, s), pc, flagged,
             Move(t.row, t.folder, Some(0), to));
    k := n + 1;
  }

  lemma UpdatesStage(media: set<string>, start: Job, around: Around, n: nat, s: Stores,
                     stage: Stage, patch: ManifestPatch, andThen: After, flagged: bool) returns (k: nat)
    requires Stands(media, start, around, n, s, Reading(stage, patch, andThen), flagged) && s.folder.manifest.Some?
    ensures Stands(media, start, around, k, UpdatedStores(s, stage, patch, around.now), Continue(andThen), flagged)
  {
    var next := SoloUpdate(media, start, 0, Always(InputOf(around)), n, Holding(start, s), stage, patch, andThen,
                           flagged);
    k := n + 3;
  }

  lemma Registers(media: set<string>, s: Stores, flagged: bool, around: Around) returns (k: nat)
    ensures Stands(media, StartOf(s, flagged), around, k, s, Registered, flagged)
  {
    var start := StartOf(s, flagged);
    assert At(start, 0, Claimed, flagged) == start;
    SoloStep(media, start, 0, Always(InputOf(around)), 0, start, Claimed, flagged,
             Move(s.row, s.folder, Some(0), Registered));
    k := 1;
  }

  lemma Records(media: set<string>, start: Job, around: Around, n: nat, s: Stores, t: Transcript, flagged: bool)
    returns (k: nat)
    requires Stands(media, start, around, n, s, Saving(t), flagged) && s.folder.manifest.Some?
    ensures Stands(media, start, around, k, RecordedStores(s, t, around.now), Finishing, flagged)
  {
    var saved := SavedStores(s, t);
    var updated := UpdatedStores(saved, Stage.Transcribed, TranscribedPatch(t), around.now);
    k := Advances(media, start, around, n, s, Saving(t), flagged, saved,
                  Reading(Stage.Transcribed, TranscribedPatch(t), ThenDone));
    k := UpdatesStage(media, start, around, k, saved, Stage.Transcribed, TranscribedPatch(t), ThenDone, flagged);
    k := UpdatesStage(media, start, around, k, updated, Stage.Done, NO_PATCH, ThenFinish, flagged);
  }

  lemma Transcribes(media: set<string>, start: Job, around: Around, n: nat, s: Stores, m: Manifest, flagged: bool)
    returns (k: nat)
    requires Stands(media, start, around, n, s, AwaitingTranscript(m), flagged) && s.folder.manifest.Some?
    requires !flagged ==> !InputOf(around).result.SawCancel?
    ensures var (t, exit) := TranscribeStores(s, m, around); Stands(media, start, around, k, t, PcOf(exit), flagged)
  {
    var result := InputOf(around).result;
    var pc := if m.sourcePath.None? || result.Broke? then Raising
              else if result.SawCancel? then CancelMarking else Saving(result.transcript);
    k := Advances(media, start, around, n, s, AwaitingTranscript(m), flagged, s, pc);
    if pc.Saving? {
      k := Records(media, start, around, k, s, result.transcript, flagged);
    }
  }

  /** From the registration to the end of the try block. */
  lemma Tries(media: set<string>, start: Job, around: Around, n: nat, s: Stores, flagged: bool) returns (k: nat)
    requires Stands(media, start, around, n, s, Registered, flagged)
    requires !flagged ==> !InputOf(around).result.SawCancel?
    ensures var (t, exit) := TryStores(media, s, around, flagged);
            Stands(media, start, around, k, t, PcOf(exit), flagged)
  {
    if s.folder.manifest.None? {
      k := Advances(media, start, around, n, s, Registered, flagged, s, Raising);
    } else {
      var m := s.folder.manifest.value;
      var point := InferResumePoint(m, s.folder, media);
      if point.None? {
        k := Advances(media, start, around, n, s, Registered, flagged, s, Finishing);
      } else {
        var ingested := IsStageComplete(Stage.Ingested, m, s.folder, media);
        k := Advances(media, start, around, n, s, Registered, flagged, s,
                      Resuming(m, point.value, ingested, s.folder.transcript.Parsed?));
        k := Resumes(media, start, around, k, s, m, point.value, ingested, flagged);
      }
    }
  }

  lemma Resumes(media: set<string>, start: Job, around: Around, n: nat, s: Stores, m: Manifest, at: Stage,
                ingested: bool, flagged: bool)
    returns (k: nat)
    requires Stands(media, start, around, n, s, Resuming(m, at, ingested, s.folder.transcript.Parsed?), flagged)
    requires s.folder.manifest == Some(m) && InferResumePoint(m, s.folder, media) == Some(at)
    requires ingested == IsStageComplete(Stage.Ingested, m, s.folder, media)
    requires !flagged ==> !InputOf(around).result.SawCancel?
    ensures var (t, exit) := TryStores(media, s, around, flagged);
            Stands(media, start, around, k, t, PcOf(exit), flagged)
  {
    var transcribed := s.folder.transcript.Parsed?;
    if !ingested {
      IngestBranchOnlyRaises(m, s.folder, media);
      k := Advances(media, start, around, n, s, Resuming(m, at, ingested, transcribed), flagged, s, Raising);
    } else {
      k := Advances(media, start, around, n, s, Resuming(m, at, ingested, transcribed), flagged, s,
                    Branch(m, at, transcribed));
      if !transcribed {
        k := Transcribes(media, start, around, k, s, m, flagged);
      } else if at == Stage.Done {
        k := Finalizes(media, start, around, k, s, flagged);
      }
    }
  }

  lemma Finalizes(media: set<string>, start: Job, around: Around, n: nat, s: Stores, flagged: bool) returns (k: nat)
    requires Stands(media, start, around, n, s, Finalizing, flagged) && s.folder.manifest.Some?
    ensures if flagged then Stands(media, start, around, k, s, CancelMarking, flagged)
            else Stands(media, start, around, k, UpdatedStores(s, Stage.Done, NO_PATCH, around.now), Finishing, flagged)
  {
    k := Advances(media, start, around, n, s, Finalizing, flagged, s,
                  if flagged then CancelMarking else Reading(Stage.Done, NO_PATCH, ThenFinish));
    if !flagged {
      k := UpdatesStage(media, start, around, k, s, Stage.Done, NO_PATCH, ThenFinish, flagged);
    }
  }

  lemma Handles(media: set<string>, start: Job, around: Around, n: nat, s: Stores, exit: Exit, flagged: bool)
    returns (k: nat)
    requires Stands(media, start, around, n, s, PcOf(exit), flagged)
    requires exit.CancelledOut? ==> Remains(around.rest, s.folder)
    ensures Stands(media, start, around, k, Handled(s, exit, around), Finishing, flagged)
  {
    if exit.CancelledOut? {
      k := HandlesCancel(media, start, around, n, s, flagged);
    } else if exit.Raised? {
      k := Advances(media, start, around, n, s, Raising, flagged, s.(row := FailRow(s.row, around.error)), Finishing);
    } else {
      k := n;
    }
  }

  lemma HandlesCancel(media: set<string>, start: Job, around: Around, n: nat, s: Stores, flagged: bool) returns (k: nat)
    requires Stands(media, start, around, n, s, CancelMarking, flagged) && Remains(around.rest, s.folder)
    ensures Stands(media, start, around, k, Handled(s, CancelledOut, around), Finishing, flagged)
  {
    var marked := s.(row := CancelRow(s.row));
    k := Advances(media, start, around, n, s, CancelMarking, flagged, marked,
                  if s.row.Some? then Removing else Finishing);
    if s.row.Some? {
      k := Advances(media, start, around, k, marked, Removing, flagged, Stores(marked.row, around.rest), Finishing);
    }
  }

  /** The `finally` block, and the run is over. */
  lemma Concludes(media: set<string>, s: Stores, around: Around, n: nat, t: Stores, flagged: bool)
    requires Stands(media, StartOf(s, flagged), around, n, t, Finishing, flagged)
    ensures Ends(media, StartOf(s, flagged), 0, Always(InputOf(around)), EndOf(t))
  {
    var start := StartOf(s, flagged);
    assert start.procs[0 := Runner(Finishing, flagged)] - {0} == map[];
    assert Solo(media, start, 0, Always(InputOf(around)), n + 1) == Some(EndOf(t));
  }

  /** A call of `run_job` as a whole is a run of the protocol from the claim to its end. */
  lemma RunStoresIsARun(media: set<string>, s: Stores, around: Around, flagged: bool)
    requires !flagged ==> forall k: nat :: !around.cancelled(k)
    requires Remains(around.rest, s.folder)
    ensures Ends(media, StartOf(s, flagged), 0, Always(InputOf(around)), EndOf(RunStores(media, s, around, flagged)))
  {
    if !flagged {
      ChunkWindows.OnlyTheFlagCancels(around.Work(), around.detect);
    }
    var start := StartOf(s, flagged);
    var n := Registers(media, s, flagged, around);
    n := Tries(media, start, around, n, s, flagged);
    var (t, exit) := TryStores(media, s, around, flagged);
    n := Handles(media, start, around, n, t, exit, flagged);
    Concludes(media, s, around, n, RunStores(media, s, around, flagged), flagged);
  }

  /** The call gets as far as the transcriber: the files lead to it, and the manifest
      names a source. */
  predicate ReachesTranscriber(media: set<string>, s: Stores) {
    && s.folder.manifest.Some?
    && !HasTranscript(s.folder)
    && IsStageComplete(Stage.Ingested, s.folder.manifest.value, s.folder, media)
    && s.folder.manifest.value.sourcePath.Some?
  }

  /** A manifest after a run has recorded what the transcriber returned. */
  predicate RecordsTranscript(after: Manifest, before: Manifest, t: Transcript, now: string) {
    && after.language == t.language && after.durationS == t.durationS
    && after.currentStage == Some(Stage.Done) && after.status == Status.Done
    && after.timestamps == before.timestamps.(transcribed := Some(now), done := Some(now))
    && after == before.(language := after.language, durationS := after.durationS, currentStage := after.currentStage,
                        status := after.status, timestamps := after.timestamps)
  }

  /** What a call saves is what the transcriber returned for the decoded audio, with no
      language asked for: the whole of it, and manifest and row record its language and
      duration; no other file is touched. */
  lemma RunSavesTranscript(media: set<string>, s: Stores, around: Around, flagged: bool)
    requires ReachesTranscriber(media, s) && s.row.Some?
    requires around.Transcription().outcome.Finished?
    ensures var work := Chunker.Task(around.adapter, around.audio, None, around.jobId, around.cancelled);
            var run := Chunker.Transcription(work, around.detect);
            var after := RunStores(media, s, around, flagged);
            && run.outcome.Finished?
            && after.folder.manifest.Some? && after.row.Some?
            && after.folder == s.folder.(transcript := Parsed(run.outcome.transcript),
                                         manifest := after.folder.manifest)
            && RecordsTranscript(after.folder.manifest.value, s.folder.manifest.value, run.outcome.transcript,
                                 around.now)
            && RowRepeats(after.row.value, s.row.value, after.folder.manifest.value)
  {
    ResumePointCases(s.folder.manifest.value, s.folder, media);
  }

  /** Every other call leaves the transcript as it was, unless it deletes the folder. */
  lemma RunSavesNothingElse(media: set<string>, s: Stores, around: Around, flagged: bool)
    ensures var after := RunStores(media, s, around, flagged);
            || after.folder.transcript == s.folder.transcript
            || after.folder == around.rest
            || (ReachesTranscriber(media, s) && around.Transcription().outcome.Finished?)
  {
    if s.folder.manifest.Some? {
      ResumePointCases(s.folder.manifest.value, s.folder, media);
    }
  }

  /** From an adapter that hears the utterances, the saved transcript is the utterances:
      every one of them, but for those that a window end or a split cuts. */
  lemma RunSavesUtterances(media: set<string>, s: Stores, around: Around, flagged: bool, ref: seq<SttSegment>)
    requires ReachesTranscriber(media, s) && s.row.Some?
    requires forall k: nat :: !around.cancelled(k)
    requires ChunkSplits.Utterances(ref, |around.audio|)
    requires ChunkExact.HearsFile(around.Work(), around.detect, ref)
    ensures var saved := RunStores(media, s, around, flagged).folder.transcript;
            && saved.Parsed?
            && saved.transcript.jobId == around.jobId
            && saved.transcript.durationS == Some(|around.audio| as real / 16_000.0)
            && (if |around.audio| <= 1800 * 16_000 then
                  var reply := around.adapter(0, Request(around.audio, None, true));
                  reply.Text? && saved.transcript.language == Some(reply.stt.language)
                else
                  var found := around.detect(around.audio[..30 * 16_000]);
                  found.Ok? && saved.transcript.language == Some(found.value))
            && ChunkExact.SaysExactly(saved.transcript.segments,
                 ChunkSplits.Filter(ref, u => Chunker.Short(around.audio)
                                              || !ChunkExact.Lost(ChunkExact.Spoken(around.Work(), around.detect), u)))
  {
    ChunkExact.TranscriptIsExact(around.Work(), around.detect, ref);
    ChunkRequests.TranscriptFields(around.Work(), around.detect);
    RunSavesTranscript(media, s, around, flagged);
  }

  /** End to end: a healthy claimed job whose source the transcriber gets through ends
      done, with nothing to resume; what is saved is what the transcriber returned, and a
      transcript that was there is kept. */
  lemma HealthyRunIsDone(media: set<string>, s: Stores, around: Around)
    requires Inv(StartOf(s, false)) && Healthy(media, StartOf(s, false), 0)
    requires forall k: nat :: !around.cancelled(k)
    requires Remains(around.rest, s.folder)
    requires HasTranscript(s.folder) || around.Transcription().outcome.Finished?
    ensures var after := RunStores(media, s, around, false);
            && Finished(media, EndOf(after), 0)
            && after.folder.transcript
               == (if HasTranscript(s.folder) then s.folder.transcript
                   else Parsed(around.Transcription().outcome.transcript))
            && (!HasTranscript(s.folder) && ChunkOrder.OrderedAdapter(around.adapter) ==>
                  ChunkOrder.OrderedTranscript(after.folder.transcript.transcript.segments, 0.0,
                                               Seconds(|around.audio|)))
  {
    RunStoresIsARun(media, s, around, false);
    EndedRunIsDone(media, StartOf(s, false), 0, Always(InputOf(around)), EndOf(RunStores(media, s, around, false)));
    if !HasTranscript(s.folder) {
      RunSavesTranscript(media, s, around, false);
      if ChunkOrder.OrderedAdapter(around.adapter) {
        ChunkOrder.TranscriptOrdered(around.Work(), around.detect);
      }
    }
  }

  /** The outputs beyond the transcript that the manifest asks for are there. */
  predicate ExtrasComplete(m: Manifest, f: Folder) {
    && (m.diarizationEnabled ==> f.hasDiarization)
    && (m.summaryKinds != [] ==> forall kind | kind in m.summaryKinds :: kind in f.summaries)
  }

  lemma ExtrasSurvive(m: Manifest, f: Folder, next: Manifest, g: Folder, media: set<string>)
    requires next.sourcePath == m.sourcePath && next.summaryKinds == m.summaryKinds
    requires next.diarizationEnabled == m.diarizationEnabled && next.currentStage == Some(Stage.Done)
    requires g.hasSource == f.hasSource && g.hasDiarization == f.hasDiarization && g.summaries == f.summaries
    requires HasTranscript(g)
    ensures InferResumePoint(next, g, media) == None
            <==> IsStageComplete(Stage.Ingested, m, f, media) && ExtrasComplete(m, f)
  {
    ResumePointCases(next, g, media);
  }

  /** When a run that nothing disturbs ends done. A run that transcribes records "done"
      without looking at diarization or summaries, which it does not make; a run that
      finds the transcript leaves the row "starting" when one of them is missing. */
  lemma RunEndsDoneIff(media: set<string>, s: Stores, m: Manifest, around: Around)
    requires s.row.Some? && s.row.value.status == Status.Starting
    requires s.folder.manifest == Some(m) && !ManifestDone(s.folder)
    requires around.Transcription().outcome.Finished?
    ensures var after := RunStores(media, s, around, false);
            && (after.row.value.status == Status.Done
                <==> && IsStageComplete(Stage.Ingested, m, s.folder, media)
                     && if HasTranscript(s.folder) then ExtrasComplete(m, s.folder) else m.sourcePath.Some?)
            && (after.row.value.status == Status.Done ==>
                  && after.folder.manifest.Some?
                  && (InferResumePoint(after.folder.manifest.value, after.folder, media) == None
                      <==> ExtrasComplete(m, s.folder)))
  {
    ResumePointCases(m, s.folder, media);
    var after := RunStores(media, s, around, false);
    if IsStageComplete(Stage.Ingested, m, s.folder, media) && after.row.value.status == Status.Done {
      ExtrasSurvive(m, s.folder, after.folder.manifest.value, after.folder, media);
    }
  }

  /** The cancel flag is met on the way: by the transcriber, or, when the transcript is
      there and only "done" is missing, by the run itself. */
  ghost predicate FlagIsMet(media: set<string>, s: Stores, around: Around, flagged: bool) {
    && s.folder.manifest.Some?
    && var m := s.folder.manifest.value;
       && IsStageComplete(Stage.Ingested, m, s.folder, media)
       && if HasTranscript(s.folder) then flagged && ExtrasComplete(m, s.folder) && m.currentStage != Some(Stage.Done)
          else
            && m.sourcePath.Some?
            && ChunkWindows.MeetsFlag(Chunker.Task(around.adapter, around.audio, None, around.jobId, around.cancelled),
                                      around.detect)
  }

  /** When a call ends with the job cancelled: exactly when it meets the flag. Then the
      row says "cancelled" and of the folder the delete's leavings remain; otherwise the
      row does not say "cancelled". */
  lemma RunEndsCancelledIff(media: set<string>, s: Stores, around: Around, flagged: bool)
    requires s.row.Some? && s.row.value.status != Status.Cancelled
    ensures var after := RunStores(media, s, around, flagged);
            && (after.row.value.status == Status.Cancelled <==> FlagIsMet(media, s, around, flagged))
            && (FlagIsMet(media, s, around, flagged) ==> after == Stores(CancelRow(s.row), around.rest))
  {
    ChunkWindows.TranscriptionCancelledIff(around.Work(), around.detect);
    if s.folder.manifest.Some? {
      ResumePointCases(s.folder.manifest.value, s.folder, media);
    }
  }

  /** The call raises: there is no manifest, or no source, or the transcriber failed. */
  predicate RunRaises(media: set<string>, s: Stores, around: Around) {
    || s.folder.manifest.None?
    || (!IsStageComplete(Stage.Ingested, s.folder.manifest.value, s.folder, media))
    || (!HasTranscript(s.folder)
        && (s.folder.manifest.value.sourcePath.None?
            || around.Transcription().outcome.Failed?))
  }

  /** When a call fails the job: exactly when it raises. Then the row says so with the
      exception's text, and neither the folder nor anything else in the row changes. */
  lemma RunEndsFailedIff(media: set<string>, s: Stores, around: Around, flagged: bool)
    requires s.row.Some? && s.row.value.status != Status.Failed
    ensures var after := RunStores(media, s, around, flagged);
            && after.row.Some?
            && (after.row.value.status == Status.Failed <==> RunRaises(media, s, around))
            && (RunRaises(media, s, around) ==>
                  && after.folder == s.folder && after.row.value.error == Some(around.error)
                  && after.row.value == s.row.value.(status := Status.Failed, error := after.row.value.error))
            && (TryStores(media, s, around, flagged).1.Raised? <==> RunRaises(media, s, around))
  {
    if s.folder.manifest.Some? {
      ResumePointCases(s.folder.manifest.value, s.folder, media);
    }
  }

  /** What a call makes of a job that already has its transcript: with the other outputs
      there and no flag it records "done" and nothing else; once done, or while an output
      is missing, it changes nothing at all. */
  lemma RunWithTranscript(media: set<string>, s: Stores, m: Manifest, around: Around, flagged: bool)
    requires s.row.Some? && s.folder.manifest == Some(m) && SourceThere(m, s.folder, media) && HasTranscript(s.folder)
    ensures var after := RunStores(media, s, around, flagged);
            if ExtrasComplete(m, s.folder) && m.currentStage != Some(Stage.Done) then
              !flagged ==>
                && SameFiles(after.folder, s.folder) && after.folder.manifest.Some? && after.row.Some?
                && SaysDone(after.folder.manifest.value, m, around.now)
                && RowRepeats(after.row.value, s.row.value, after.folder.manifest.value)
            else after == s
  {
    ResumePointCases(m, s.folder, media);
  }
}
