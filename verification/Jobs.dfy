/** The three stores of a job: the database row, the manifest, and the job folder;
    with the functions that move one into the other. */
module Jobs {
  import opened Wrappers
  import opened Stt

  type JobId = string

  datatype Status =
    | Uploading | Created | Queued
    | Starting | Ingesting | Transcribing
    | Diarizing | Summarizing
    | Done | Failed | Cancelled

  /** `Failed` is what the boot sweep writes; no update_stage call ever uses it. */
  datatype Stage = Ingested | Transcribed | Diarized | Summarized | Done | Failed

  datatype Timestamps =
    Timestamps(queued: string, ingested: Option<string>, transcribed: Option<string>,
               diarized: Option<string>, summarized: Option<string>, done: Option<string>)

  datatype Manifest =
    Manifest(jobId: JobId, sourceType: Option<string>, sourcePath: Option<string>,
             originalFilename: Option<string>, sourceSha256: Option<string>, durationS: Option<real>,
             language: Option<string>, summaryKinds: seq<string>, diarizationEnabled: bool,
             status: Status, currentStage: Option<Stage>, timestamps: Timestamps, error: Option<string>)

  /** The fields of a patch that were sent; an unset field is the outer `None`. */
  datatype ManifestPatch =
    ManifestPatch(sourceType: Option<Option<string>>, sourcePath: Option<Option<string>>,
                  sourceSha256: Option<Option<string>>, durationS: Option<Option<real>>,
                  language: Option<Option<string>>, summaryKinds: Option<seq<string>>)

  datatype Row =
    Row(status: Status, createdAt: nat, sourceType: Option<string>, sourcePath: Option<string>,
        originalFilename: Option<string>, sourceSha256: Option<string>, currentStage: Option<Stage>,
        timestamps: Option<Timestamps>, durationS: Option<real>, language: Option<string>,
        summaryKinds: Option<seq<string>>, error: Option<string>)

  datatype StageFile = Missing | Unreadable | Parsed(transcript: Transcript)

  /** A job folder; `EMPTY_FOLDER` also stands for one that does not exist.
      `summaries` are the kinds whose summary file parses. */
  datatype Folder =
    Folder(manifest: Option<Manifest>, transcript: StageFile, hasSource: bool,
           hasDiarization: bool, summaries: set<string>)

  const EMPTY_FOLDER := Folder(None, Missing, false, false, {})
  const NO_PATCH := ManifestPatch(None, None, None, None, None, None)
  const INTERRUPTED_ERROR := "interrupted (backend restarted)"

  predicate PreActive(s: Status) {
    s == Status.Uploading || s == Status.Created || s == Status.Queued
  }

  predicate Active(s: Status) {
    s == Status.Starting || s == Status.Ingesting || s == Status.Transcribing
  }

  predicate Terminal(s: Status) {
    s == Status.Done || s == Status.Failed || s == Status.Cancelled
  }

  // ---------------------------------------------------------------- manifest

  function StageToStatus(stage: Option<Stage>, m: Manifest): Status {
    match stage
    case None => Status.Queued
    case Some(Ingested) => Status.Ingesting
    case Some(Transcribed) => Status.Transcribing
    case Some(Diarized) => if m.diarizationEnabled then Status.Diarizing else Status.Transcribing
    case Some(Summarized) => if |m.summaryKinds| > 0 then Status.Summarizing else Status.Transcribing
    case Some(Done) => Status.Done
    case Some(Failed) => Status.Queued
  }

  function EmptyManifest(id: JobId, now: string): Manifest {
    Manifest(id, None, None, None, None, None, None, [], false, Status.Queued, None,
             Timestamps(now, None, None, None, None, None), None)
  }

  function Stamp(ts: Timestamps, stage: Stage, now: string): Timestamps {
    match stage
    case Ingested => ts.(ingested := Some(now))
    case Transcribed => ts.(transcribed := Some(now))
    case Diarized => ts.(diarized := Some(now))
    case Summarized => ts.(summarized := Some(now))
    case Done => ts.(done := Some(now))
    case Failed => ts
  }

  function Patched(m: Manifest, p: ManifestPatch): Manifest {
    m.(sourceType := if p.sourceType.Some? then p.sourceType.value else m.sourceType,
       sourcePath := if p.sourcePath.Some? then p.sourcePath.value else m.sourcePath,
       sourceSha256 := if p.sourceSha256.Some? then p.sourceSha256.value else m.sourceSha256,
       durationS := if p.durationS.Some? then p.durationS.value else m.durationS,
       language := if p.language.Some? then p.language.value else m.language,
       summaryKinds := if p.summaryKinds.Some? then p.summaryKinds.value else m.summaryKinds)
  }

  /** The manifest `update_stage` writes. */
  function Advance(m: Manifest, stage: Stage, patch: ManifestPatch, now: string): Manifest {
    var next := Patched(m.(currentStage := Some(stage), timestamps := Stamp(m.timestamps, stage, now)), patch);
    next.(status := StageToStatus(Some(stage), next))
  }

  /** The row UPDATE of `update_stage`. */
  function Project(row: Row, m: Manifest): Row {
    row.(status := StageToStatus(m.currentStage, m), currentStage := m.currentStage,
         timestamps := Some(m.timestamps), sourceType := m.sourceType, sourcePath := m.sourcePath,
         originalFilename := m.originalFilename, sourceSha256 := m.sourceSha256,
         durationS := m.durationS, language := m.language, summaryKinds := Some(m.summaryKinds))
  }

  /** The manifest the boot sweep leaves behind for an interrupted job. */
  function Spoiled(m: Manifest): Manifest {
    m.(status := Status.Failed, currentStage := Some(Stage.Failed), error := Some(INTERRUPTED_ERROR))
  }

  // ---------------------------------------------------------------- rows

  /** The row a creation INSERTs. */
  function NewRow(status: Status, createdAt: nat, sourceType: Option<string>, sourcePath: Option<string>): Row {
    Row(status, createdAt, sourceType, sourcePath, None, None, None, None, None, None, None, None)
  }

  /** Each conditional UPDATE leaves a row it does not match, or a missing row, as it is. */
  function EnqueueRow(row: Option<Row>): Option<Row> {
    if row.Some? && PreActive(row.value.status) then Some(row.value.(status := Status.Queued)) else row
  }

  function ClaimRow(row: Option<Row>): Option<Row> {
    if row.Some? && row.value.status == Status.Queued then Some(row.value.(status := Status.Starting)) else row
  }

  function CancelQueuedRow(row: Option<Row>): Option<Row> {
    if row.Some? && row.value.status == Status.Queued then Some(row.value.(status := Status.Cancelled)) else row
  }

  function CancelRow(row: Option<Row>): Option<Row> {
    if row.Some? then Some(row.value.(status := Status.Cancelled)) else row
  }

  function FailRow(row: Option<Row>, error: string): Option<Row> {
    if row.Some? then Some(row.value.(status := Status.Failed, error := Some(error))) else row
  }

  function ProjectRow(row: Option<Row>, m: Manifest): Option<Row> {
    if row.Some? then Some(Project(row.value, m)) else row
  }

  function HealRow(row: Option<Row>, m: Option<Manifest>): Option<Row> {
    if row.Some? && m.Some? && Drifted(row.value, m.value) then Some(Heal(row.value, m.value)) else row
  }

  /** `rest` is what a recursive delete that may give up half way leaves of `f`. */
  predicate Remains(rest: Folder, f: Folder) {
    && (rest.manifest == None || rest.manifest == f.manifest)
    && (rest.transcript == Missing || rest.transcript == f.transcript)
    && (rest.hasSource ==> f.hasSource)
    && (rest.hasDiarization ==> f.hasDiarization)
    && rest.summaries <= f.summaries
  }

  // ---------------------------------------------------------------- reconcile

  /** The nine columns that boot compares with the manifest. */
  datatype Columns =
    Columns(status: Status, currentStage: Option<Stage>, timestamps: Option<Timestamps>,
            language: Option<string>, durationS: Option<real>, sourceType: Option<string>,
            sourcePath: Option<string>, sourceSha256: Option<string>, summaryKinds: seq<string>)

  /** A NULL summary list reads as the empty list. */
  function ColumnsOfRow(r: Row): Columns {
    Columns(r.status, r.currentStage, r.timestamps, r.language, r.durationS, r.sourceType,
            r.sourcePath, r.sourceSha256, if r.summaryKinds.Some? then r.summaryKinds.value else [])
  }

  function ColumnsOfManifest(m: Manifest): Columns {
    Columns(StageToStatus(m.currentStage, m), m.currentStage, Some(m.timestamps), m.language, m.durationS,
            m.sourceType, m.sourcePath, m.sourceSha256, m.summaryKinds)
  }

  predicate Drifted(r: Row, m: Manifest) {
    || r.currentStage != m.currentStage
    || r.timestamps != Some(m.timestamps)
    || r.status != StageToStatus(m.currentStage, m)
    || r.language != m.language
    || r.durationS != m.durationS
    || r.sourceType != m.sourceType
    || r.sourcePath != m.sourcePath
    || r.sourceSha256 != m.sourceSha256
    || (if r.summaryKinds.Some? then r.summaryKinds.value else []) != m.summaryKinds
  }

  /** Boot's UPDATE: unlike `Project` it leaves `original_filename` alone. */
  function Heal(row: Row, m: Manifest): Row {
    row.(status := StageToStatus(m.currentStage, m), currentStage := m.currentStage,
         timestamps := Some(m.timestamps), sourceType := m.sourceType, sourcePath := m.sourcePath,
         sourceSha256 := m.sourceSha256, durationS := m.durationS, language := m.language,
         summaryKinds := Some(m.summaryKinds))
  }

  /** The row repeats the manifest, and is otherwise as it was. */
  predicate RowRepeats(after: Row, before: Row, m: Manifest) {
    && after.status == m.status && after.currentStage == m.currentStage && after.timestamps == Some(m.timestamps)
    && after.language == m.language && after.durationS == m.durationS
    && after.sourceType == m.sourceType && after.sourcePath == m.sourcePath && after.sourceSha256 == m.sourceSha256
    && after.originalFilename == m.originalFilename && after.summaryKinds == Some(m.summaryKinds)
    && after.createdAt == before.createdAt && after.error == before.error
  }

  /** A manifest that says "done", and is otherwise as before. */
  predicate SaysDone(after: Manifest, before: Manifest, now: string) {
    && after.status == Status.Done && after.currentStage == Some(Stage.Done)
    && after.timestamps == before.timestamps.(done := Some(now))
    && after == before.(status := after.status, currentStage := after.currentStage, timestamps := after.timestamps)
  }

  /** Source, transcript, diarization and summaries are as before. */
  predicate SameFiles(after: Folder, before: Folder) {
    after == before.(manifest := after.manifest)
  }

  /** The row and manifest when `update_stage` stops before its write, between
      write and UPDATE, or after the UPDATE. */
  datatype StopPoint = BeforeWrite | BeforeUpdate | Completed

  function StoppedUpdate(row: Row, m: Manifest, stage: Stage, patch: ManifestPatch, now: string,
                         at: StopPoint): (Row, Manifest) {
    var next := Advance(m, stage, patch, now);
    match at
    case BeforeWrite => (row, m)
    case BeforeUpdate => (row, next)
    case Completed => (Project(row, next), next)
  }

  /** A stage update is crash-atomic: wherever it stops, boot leaves the nine columns
      equal to the projection of either the old or the fully updated manifest; once
      completed there is nothing to heal; and healing twice is healing once. */
  lemma UpdateStageIsCrashAtomic(row: Row, m: Manifest, stage: Stage, patch: ManifestPatch, now: string, at: StopPoint)
    ensures var (r, f) := StoppedUpdate(row, m, stage, patch, now, at);
            var healed := HealRow(Some(r), Some(f)).value;
            && ColumnsOfRow(healed) == ColumnsOfManifest(if at.BeforeWrite? then m else Advance(m, stage, patch, now))
            && (at.Completed? ==> healed == r)
            && !Drifted(healed, f)
            && HealRow(Some(healed), Some(f)) == Some(healed)
  {
    var (r, f) := StoppedUpdate(row, m, stage, patch, now, at);
    DriftIsColumnDifference(r, f);
    DriftIsColumnDifference(Heal(r, f), f);
  }

  /** A row has drifted exactly when one of the nine columns differs. */
  lemma DriftIsColumnDifference(r: Row, m: Manifest)
    ensures Drifted(r, m) <==> ColumnsOfRow(r) != ColumnsOfManifest(m)
  {
  }

  /** A stage update sets the stage, its status and one timestamp; of the other fields
      exactly those that the patch carries change, to what it carries; and the row takes
      over every projected column. */
  lemma UpdateStageProtectsFields(row: Row, m: Manifest, stage: Stage, patch: ManifestPatch, now: string)
    ensures var next := Advance(m, stage, patch, now);
            && next.currentStage == Some(stage) && next.status == StageToStatus(Some(stage), next)
            && next.jobId == m.jobId && next.error == m.error
            && next.diarizationEnabled == m.diarizationEnabled && next.originalFilename == m.originalFilename
            && (if patch.sourceType.Some? then Some(next.sourceType) == patch.sourceType
                else next.sourceType == m.sourceType)
            && (if patch.sourcePath.Some? then Some(next.sourcePath) == patch.sourcePath
                else next.sourcePath == m.sourcePath)
            && (if patch.sourceSha256.Some? then Some(next.sourceSha256) == patch.sourceSha256
                else next.sourceSha256 == m.sourceSha256)
            && (if patch.durationS.Some? then Some(next.durationS) == patch.durationS
                else next.durationS == m.durationS)
            && (if patch.language.Some? then Some(next.language) == patch.language else next.language == m.language)
            && (if patch.summaryKinds.Some? then Some(next.summaryKinds) == patch.summaryKinds
                else next.summaryKinds == m.summaryKinds)
    ensures var next := Advance(m, stage, patch, now);
            && (forall other | other != stage :: StampOf(next.timestamps, other) == StampOf(m.timestamps, other))
            && next.timestamps.queued == m.timestamps.queued
            && (stage != Stage.Failed ==> StampOf(next.timestamps, stage) == Some(now))
    ensures var next := Advance(m, stage, patch, now);
            ColumnsOfRow(Project(row, next)) == ColumnsOfManifest(next) && RowRepeats(Project(row, next), row, next)
  {
  }

  function StampOf(ts: Timestamps, stage: Stage): Option<string> {
    match stage
    case Ingested => ts.ingested
    case Transcribed => ts.transcribed
    case Diarized => ts.diarized
    case Summarized => ts.summarized
    case Done => ts.done
    case Failed => None
  }

  /** No stage that a run writes projects onto a status a worker could claim. */
  lemma RunStagesNeverQueue(m: Manifest, stage: Stage)
    requires stage != Stage.Failed
    ensures !PreActive(StageToStatus(Some(stage), m))
    ensures StageToStatus(Some(stage), m) == Status.Done <==> stage == Stage.Done
  {
  }

  /** What a stage says about the status, read backwards from the status: every status a
      stage can project to names its stage, and a stage that was not asked for counts as
      transcribing. */
  lemma StatusTellsStage(m: Manifest, stage: Option<Stage>)
    ensures var status := StageToStatus(stage, m);
            && (status == Status.Queued <==> stage == None || stage == Some(Stage.Failed))
            && (status == Status.Ingesting <==> stage == Some(Stage.Ingested))
            && (status == Status.Diarizing <==> stage == Some(Stage.Diarized) && m.diarizationEnabled)
            && (status == Status.Summarizing <==> stage == Some(Stage.Summarized) && m.summaryKinds != [])
            && (status == Status.Done <==> stage == Some(Stage.Done))
            && (status == Status.Transcribing
                <==> || stage == Some(Stage.Transcribed)
                     || (stage == Some(Stage.Diarized) && !m.diarizationEnabled)
                     || (stage == Some(Stage.Summarized) && m.summaryKinds == []))
  {
  }

  /** The statuses fall into three classes and the two that no job is left in. */
  lemma StatusClasses(s: Status)
    ensures PreActive(s) <==> s in {Status.Uploading, Status.Created, Status.Queued}
    ensures Active(s) <==> s in {Status.Starting, Status.Ingesting, Status.Transcribing}
    ensures Terminal(s) <==> s in {Status.Done, Status.Failed, Status.Cancelled}
  {
  }

  /** A new job's manifest says no more than its row: reconcile gives the row the queued
      timestamp and the empty summary list, and takes away the source it was created with. */
  lemma NewJobReconciled(id: JobId, now: string, createdAt: nat, sourceType: Option<string>, sourcePath: Option<string>)
    ensures EmptyManifest(id, now).jobId == id
    ensures var row := NewRow(Status.Queued, createdAt, sourceType, sourcePath);
            var healed := HealRow(Some(row), Some(EmptyManifest(id, now)));
            && row.createdAt == createdAt && row.sourceType == sourceType && row.sourcePath == sourcePath
            && healed == Some(row.(timestamps := Some(Timestamps(now, None, None, None, None, None)),
                                   summaryKinds := Some([]),
                                   sourceType := None, sourcePath := None))
            && healed.value == Row(Status.Queued, createdAt, None, None, None, None, None,
                                   Some(Timestamps(now, None, None, None, None, None)), None, None, Some([]), None)
  {
  }

  /** A healed row repeats the manifest in nine columns and keeps its name, its creation
      time and its error. */
  lemma HealFieldByField(row: Row, m: Manifest)
    ensures var healed := HealRow(Some(row), Some(m)).value;
            && healed.status == StageToStatus(m.currentStage, m) && healed.currentStage == m.currentStage
            && healed.timestamps == Some(m.timestamps) && healed.language == m.language
            && healed.durationS == m.durationS && healed.sourceType == m.sourceType
            && healed.sourcePath == m.sourcePath && healed.sourceSha256 == m.sourceSha256
            && (healed.summaryKinds == Some(m.summaryKinds) || (row.summaryKinds.None? && m.summaryKinds == []
                                                                && healed == row))
            && healed.createdAt == row.createdAt && healed.originalFilename == row.originalFilename
            && healed.error == row.error
  {
  }

  /** A failed or cancelled row survives the next boot's reconcile exactly when there is
      no manifest to project: no stage projects to either status. */
  lemma EndSurvivesOnlyWithoutManifest(row: Row, m: Option<Manifest>)
    requires row.status == Status.Failed || row.status == Status.Cancelled
    ensures HealRow(Some(row), m).value.status == row.status <==> m.None?
  {
  }

  /** In particular the sweep's own failed manifest sends the job back to the queue. */
  lemma SweptJobIsQueuedAgain(row: Row, m: Manifest)
    requires row.status == Status.Failed
    ensures HealRow(Some(row), Some(Spoiled(m))).value.status == Status.Queued
  {
  }

  // ---------------------------------------------------------------- tables

  /** The jobs table and the job folders, by job. */
  function RowIn(rows: map<JobId, Row>, id: JobId): Option<Row> {
    if id in rows then Some(rows[id]) else None
  }

  function WithRow(rows: map<JobId, Row>, id: JobId, r: Option<Row>): map<JobId, Row> {
    if r.Some? then rows[id := r.value] else rows - {id}
  }

  function FolderIn(folders: map<JobId, Folder>, id: JobId): Folder {
    if id in folders then folders[id] else EMPTY_FOLDER
  }
}
