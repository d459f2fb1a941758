/** The resume rule: the files decide which stage runs next. */
module Resume {
  import opened Wrappers
  import opened Jobs

  const STAGE_ORDER := [Stage.Ingested, Stage.Transcribed, Stage.Diarized, Stage.Summarized, Stage.Done]

  predicate IsStageApplicable(stage: Stage, m: Manifest) {
    match stage
    case Diarized => m.diarizationEnabled
    case Summarized => |m.summaryKinds| > 0
    case _ => true
  }

  /** `media` holds the paths that name an existing, non-empty file. */
  predicate IsStageComplete(stage: Stage, m: Manifest, f: Folder, media: set<string>)
    decreases if stage == Stage.Done then 2 else 0
  {
    match stage
    case Ingested => (m.sourcePath.Some? && m.sourcePath.value != "" && m.sourcePath.value in media) || f.hasSource
    case Transcribed => f.transcript.Parsed?
    case Diarized => f.hasDiarization
    case Summarized => m.summaryKinds != [] && forall kind | kind in m.summaryKinds :: kind in f.summaries
    case Done => m.currentStage == Some(Stage.Done) && PriorsComplete(m, f, media)
    case Failed => false
  }

  predicate PriorsComplete(m: Manifest, f: Folder, media: set<string>)
    decreases 1
  {
    && IsStageComplete(Stage.Ingested, m, f, media)
    && IsStageComplete(Stage.Transcribed, m, f, media)
    && (IsStageApplicable(Stage.Diarized, m) ==> IsStageComplete(Stage.Diarized, m, f, media))
    && (IsStageApplicable(Stage.Summarized, m) ==> IsStageComplete(Stage.Summarized, m, f, media))
  }

  /** The walk: the first applicable stage, from position `i` on, that is not complete. */
  function FirstIncomplete(m: Manifest, f: Folder, media: set<string>, i: nat): Option<Stage>
    requires i <= |STAGE_ORDER|
    decreases |STAGE_ORDER| - i
  {
    if i == |STAGE_ORDER| then None
    else if IsStageApplicable(STAGE_ORDER[i], m) && !IsStageComplete(STAGE_ORDER[i], m, f, media) then
      Some(STAGE_ORDER[i])
    else FirstIncomplete(m, f, media, i + 1)
  }

  function InferResumePoint(m: Manifest, f: Folder, media: set<string>): Option<Stage> {
    FirstIncomplete(m, f, media, 0)
  }

  /** There is a source: the manifest names an existing, non-empty file, or the folder
      holds one. */
  predicate SourceThere(m: Manifest, f: Folder, media: set<string>) {
    f.hasSource || (m.sourcePath.Some? && m.sourcePath.value != "" && m.sourcePath.value in media)
  }

  /** The walk in closed form, on what lies in the folder. */
  lemma ResumePointCases(m: Manifest, f: Folder, media: set<string>)
    ensures InferResumePoint(m, f, media) ==
            if !SourceThere(m, f, media) then Some(Stage.Ingested)
            else if !f.transcript.Parsed? then Some(Stage.Transcribed)
            else if m.diarizationEnabled && !f.hasDiarization then Some(Stage.Diarized)
            else if exists kind :: kind in m.summaryKinds && kind !in f.summaries then Some(Stage.Summarized)
            else if m.currentStage != Some(Stage.Done) then Some(Stage.Done)
            else None
    ensures IsStageComplete(Stage.Ingested, m, f, media) <==> SourceThere(m, f, media)
  {
    assert FirstIncomplete(m, f, media, 5) == None;
    assert FirstIncomplete(m, f, media, 4)
        == if IsStageComplete(Stage.Done, m, f, media) then None else Some(Stage.Done);
    assert FirstIncomplete(m, f, media, 3)
        == if IsStageApplicable(Stage.Summarized, m) && !IsStageComplete(Stage.Summarized, m, f, media)
           then Some(Stage.Summarized) else FirstIncomplete(m, f, media, 4);
    assert FirstIncomplete(m, f, media, 2)
        == if IsStageApplicable(Stage.Diarized, m) && !IsStageComplete(Stage.Diarized, m, f, media)
           then Some(Stage.Diarized) else FirstIncomplete(m, f, media, 3);
    assert FirstIncomplete(m, f, media, 1)
        == if !IsStageComplete(Stage.Transcribed, m, f, media) then Some(Stage.Transcribed)
           else FirstIncomplete(m, f, media, 2);
  }

  /** There is nothing, or only the derived "done", left to do exactly when every
      applicable stage's output is complete. */
  lemma NothingLeftIffOutputsComplete(m: Manifest, f: Folder, media: set<string>)
    ensures (InferResumePoint(m, f, media) == None || InferResumePoint(m, f, media) == Some(Stage.Done))
            <==> PriorsComplete(m, f, media)
    ensures InferResumePoint(m, f, media) == None
            <==> PriorsComplete(m, f, media) && m.currentStage == Some(Stage.Done)
  {
    ResumePointCases(m, f, media);
  }

  /** Recording "done" on a job whose outputs are complete leaves nothing to resume. */
  lemma AdvancingToDoneFinishes(m: Manifest, f: Folder, media: set<string>, now: string)
    requires PriorsComplete(m, f, media)
    ensures InferResumePoint(Advance(m, Stage.Done, NO_PATCH, now),
                             f.(manifest := Some(Advance(m, Stage.Done, NO_PATCH, now))), media)
            == None
  {
    var next := Advance(m, Stage.Done, NO_PATCH, now);
    var g := f.(manifest := Some(next));
    assert PriorsComplete(next, g, media);
    NothingLeftIffOutputsComplete(next, g, media);
  }

  /** run_job's own check of the source before it records "ingested". */
  predicate SourceAccepted(m: Manifest, media: set<string>) {
    && m.sourceType != Some("youtube")
    && m.sourcePath.Some? && m.sourcePath.value != ""
    && m.sourcePath.value in media
  }

  /** If the walk sends a run to the ingest stage, its source check cannot pass on the
      same files: a run only ever raises there, and the row stays "starting". */
  lemma IngestBranchOnlyRaises(m: Manifest, f: Folder, media: set<string>)
    requires !IsStageComplete(Stage.Ingested, m, f, media)
    ensures !SourceAccepted(m, media)
  {
  }
}
