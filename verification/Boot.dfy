/** Boot: reconcile every row with its manifest, then settle the interrupted jobs. */
module Boot {
  import opened Wrappers
  import opened Jobs
  import opened Resume

  datatype Summary = Summary(scanned: nat, updated: nat, missingManifests: set<JobId>)

  function ReconciledRow(row: Row, folders: map<JobId, Folder>, id: JobId): Row {
    HealRow(Some(row), FolderIn(folders, id).manifest).value
  }

  /** The rows when the folders in `ids` have been looked at. */
  function ReconciledIn(rows: map<JobId, Row>, folders: map<JobId, Folder>, ids: set<JobId>): map<JobId, Row> {
    map id | id in rows :: if id in ids then ReconciledRow(rows[id], folders, id) else rows[id]
  }

  function ReconciledRows(rows: map<JobId, Row>, folders: map<JobId, Folder>): map<JobId, Row> {
    map id | id in rows :: ReconciledRow(rows[id], folders, id)
  }

  predicate NeedsHealing(rows: map<JobId, Row>, m: Option<Manifest>, id: JobId) {
    id in rows && m.Some? && Drifted(rows[id], m.value)
  }

  function DriftedIds(rows: map<JobId, Row>, folders: map<JobId, Folder>): set<JobId> {
    set id | id in folders && NeedsHealing(rows, folders[id].manifest, id)
  }

  function MissingManifests(folders: map<JobId, Folder>): set<JobId> {
    set id | id in folders && folders[id].manifest.None?
  }

  /** The counters when the folders in `ids` have been looked at. */
  function CountsOf(before: map<JobId, Row>, folders: map<JobId, Folder>, ids: set<JobId>): Summary {
    Summary(|ids|, |DriftedIds(before, folders) * ids|, MissingManifests(folders) * ids)
  }

  /** The rows and counters when all folders but `todo` have been looked at. */
  predicate ReconciledUpTo(before: map<JobId, Row>, folders: map<JobId, Folder>, todo: set<JobId>,
                           rows: map<JobId, Row>, summary: Summary)
  {
    var ids := folders.Keys - todo;
    rows == ReconciledIn(before, folders, ids) && summary == CountsOf(before, folders, ids)
  }

  function HealedRows(rows: map<JobId, Row>, m: Option<Manifest>, id: JobId): map<JobId, Row> {
    if NeedsHealing(rows, m, id) then rows[id := Heal(rows[id], m.value)] else rows
  }

  function Counted(so: Summary, rows: map<JobId, Row>, m: Option<Manifest>, id: JobId): Summary {
    Summary(so.scanned + 1, so.updated + if NeedsHealing(rows, m, id) then 1 else 0,
            so.missingManifests + if m.None? then {id} else {})
  }

  lemma ReconciledNone(rows: map<JobId, Row>, folders: map<JobId, Folder>)
    ensures ReconciledUpTo(rows, folders, folders.Keys, rows, Summary(0, 0, {}))
  {
    assert folders.Keys - folders.Keys == {};
    assert rows == ReconciledIn(rows, folders, {});
    assert DriftedIds(rows, folders) * {} == {} == MissingManifests(folders) * {};
  }

  lemma ReconcileOne(before: map<JobId, Row>, folders: map<JobId, Folder>, ids: set<JobId>, id: JobId,
                     rows: map<JobId, Row>)
    requires id !in ids && id in folders
    requires rows == ReconciledIn(before, folders, ids)
    ensures NeedsHealing(rows, folders[id].manifest, id) == (id in DriftedIds(before, folders))
    ensures HealedRows(rows, folders[id].manifest, id) == ReconciledIn(before, folders, ids + {id})
  {
  }

  lemma CountOne(all: set<JobId>, done: set<JobId>, id: JobId)
    requires id !in done
    ensures all * (done + {id}) == (all * done) + if id in all then {id} else {}
    ensures |all * (done + {id})| == |all * done| + if id in all then 1 else 0
  {
    assert id in all ==> all * (done + {id}) == (all * done) + {id};
    assert id !in all ==> all * (done + {id}) == all * done;
  }

  lemma CountStep(before: map<JobId, Row>, folders: map<JobId, Folder>, ids: set<JobId>, id: JobId,
                  rows: map<JobId, Row>)
    requires id !in ids && id in folders
    requires NeedsHealing(rows, folders[id].manifest, id) == (id in DriftedIds(before, folders))
    ensures Counted(CountsOf(before, folders, ids), rows, folders[id].manifest, id)
            == CountsOf(before, folders, ids + {id})
  {
    CountOne(DriftedIds(before, folders), ids, id);
    CountOne(MissingManifests(folders), ids, id);
    assert folders[id].manifest.None? == (id in MissingManifests(folders));
  }

  lemma ReconcileStep(before: map<JobId, Row>, folders: map<JobId, Folder>, todo: set<JobId>, id: JobId,
                      rows: map<JobId, Row>, summary: Summary)
    requires id in todo && todo <= folders.Keys
    requires ReconciledUpTo(before, folders, todo, rows, summary)
    ensures ReconciledUpTo(before, folders, todo - {id}, HealedRows(rows, folders[id].manifest, id),
                           Counted(summary, rows, folders[id].manifest, id))
  {
    var ids := folders.Keys - todo;
    ReconcileOne(before, folders, ids, id, rows);
    CountStep(before, folders, ids, id, rows);
    assert folders.Keys - (todo - {id}) == ids + {id};
  }

  lemma ReconciledAll(before: map<JobId, Row>, folders: map<JobId, Folder>, rows: map<JobId, Row>, summary: Summary)
    requires ReconciledUpTo(before, folders, {}, rows, summary)
    ensures rows == ReconciledRows(before, folders)
    ensures summary == Summary(|folders|, |DriftedIds(before, folders)|, MissingManifests(folders))
  {
    assert folders.Keys - {} == folders.Keys;
    assert DriftedIds(before, folders) * folders.Keys == DriftedIds(before, folders);
    assert MissingManifests(folders) * folders.Keys == MissingManifests(folders);
    assert |folders.Keys| == |folders|;
  }

  /** The rows that have drifted are exactly those that reconcile changes. */
  lemma DriftedAreChanged(rows: map<JobId, Row>, folders: map<JobId, Folder>)
    ensures DriftedIds(rows, folders) == set id | id in rows && ReconciledRows(rows, folders)[id] != rows[id]
  {
  }

  function ActiveIds(rows: map<JobId, Row>): set<JobId> {
    set id | id in rows && Active(rows[id].status)
  }

  predicate OnlyDoneMissing(m: Manifest, f: Folder, media: set<string>) {
    var point := InferResumePoint(m, f, media);
    point == None || point == Some(Stage.Done)
  }

  function SweptRow(row: Row, f: Folder, media: set<string>, now: string): Row {
    if f.manifest.Some? && OnlyDoneMissing(f.manifest.value, f, media) then
      Project(row, Advance(f.manifest.value, Stage.Done, NO_PATCH, now))
    else row.(status := Status.Failed, error := Some(INTERRUPTED_ERROR))
  }

  function SweptFolder(f: Folder, media: set<string>, now: string): Folder {
    if f.manifest.None? then f
    else if OnlyDoneMissing(f.manifest.value, f, media) then
      f.(manifest := Some(Advance(f.manifest.value, Stage.Done, NO_PATCH, now)))
    else f.(manifest := Some(Spoiled(f.manifest.value)))
  }

  /** The rows when the active jobs in `ids` have been swept. */
  function SweptRows(rows: map<JobId, Row>, folders: map<JobId, Folder>, ids: set<JobId>, media: set<string>,
                     now: string)
    : map<JobId, Row>
  {
    map id | id in rows :: if id in ids then SweptRow(rows[id], FolderIn(folders, id), media, now) else rows[id]
  }

  function SweptFolders(folders: map<JobId, Folder>, ids: set<JobId>, media: set<string>,
                        now: string): map<JobId, Folder> {
    map id | id in folders :: if id in ids then SweptFolder(folders[id], media, now) else folders[id]
  }

  lemma SweepStep(rows: map<JobId, Row>, folders: map<JobId, Folder>, done: set<JobId>, id: JobId, media: set<string>,
                  now: string)
    requires id in rows && id !in done
    ensures SweptRows(rows, folders, done, media, now)[id] == rows[id]
    ensures FolderIn(SweptFolders(folders, done, media, now), id) == FolderIn(folders, id)
    ensures SweptRows(rows, folders, done + {id}, media, now)
            == SweptRows(rows, folders, done, media, now)[id := SweptRow(rows[id], FolderIn(folders, id), media, now)]
    ensures SweptFolders(folders, done + {id}, media, now)
            == if id in folders
               then SweptFolders(folders, done, media, now)[id := SweptFolder(folders[id], media, now)]
               else SweptFolders(folders, done, media, now)
  {
  }

  /** A second reconcile finds nothing to heal, and every folder with a manifest and a
      row then agrees with it on the nine columns. */
  lemma ReconcileIsIdempotent(rows: map<JobId, Row>, folders: map<JobId, Folder>)
    ensures DriftedIds(ReconciledRows(rows, folders), folders) == {}
    ensures ReconciledRows(ReconciledRows(rows, folders), folders) == ReconciledRows(rows, folders)
    ensures forall id | id in rows && id in folders && folders[id].manifest.Some? ::
              ColumnsOfRow(ReconciledRows(rows, folders)[id]) == ColumnsOfManifest(folders[id].manifest.value)
  {
    forall id | id in rows && id in folders && folders[id].manifest.Some?
      ensures !Drifted(ReconciledRows(rows, folders)[id], folders[id].manifest.value)
      ensures ColumnsOfRow(ReconciledRows(rows, folders)[id]) == ColumnsOfManifest(folders[id].manifest.value)
    {
      DriftIsColumnDifference(ReconciledRows(rows, folders)[id], folders[id].manifest.value);
    }
  }

  /** A manifest that says the job was interrupted, and is otherwise as before. */
  predicate SaysInterrupted(after: Manifest, before: Manifest) {
    && after.status == Status.Failed && after.currentStage == Some(Stage.Failed)
    && after.error == Some("interrupted (backend restarted)")
    && after == before.(status := after.status, currentStage := after.currentStage, error := after.error)
  }

  /** What becomes of a job that is active after reconcile: done exactly when its manifest
      is there and every applicable output is complete; then row and manifest say "done"
      and nothing is left to resume. Otherwise it is failed, and row and manifest, if there
      is one, say that it was interrupted. No other file is touched. */
  predicate Decided(row: Row, f: Folder, after: Row, g: Folder, media: set<string>, now: string) {
    && SameFiles(g, f)
    && (f.manifest.None? <==> g.manifest.None?)
    && if f.manifest.Some? && PriorsComplete(f.manifest.value, f, media) then
         && SaysDone(g.manifest.value, f.manifest.value, now)
         && RowRepeats(after, row, g.manifest.value)
         && InferResumePoint(g.manifest.value, g, media) == None
       else
         && after.status == Status.Failed && after.error == Some("interrupted (backend restarted)")
         && after == row.(status := after.status, error := after.error)
         && (f.manifest.Some? ==> SaysInterrupted(g.manifest.value, f.manifest.value))
  }

  lemma SweepDecides(row: Row, f: Folder, media: set<string>, now: string)
    ensures Decided(row, f, SweptRow(row, f, media, now), SweptFolder(f, media, now), media, now)
  {
    if f.manifest.Some? {
      NothingLeftIffOutputsComplete(f.manifest.value, f, media);
      if PriorsComplete(f.manifest.value, f, media) {
        AdvancingToDoneFinishes(f.manifest.value, f, media, now);
      }
    }
  }

  lemma SweepEnds(row: Row, f: Folder, media: set<string>, now: string)
    ensures SweptRow(row, f, media, now).status in {Status.Done, Status.Failed}
  {
  }

  /** After boot no row is starting, ingesting or transcribing, so a second sweep has
      nothing to do. */
  lemma BootLeavesNoActiveRow(rows: map<JobId, Row>, folders: map<JobId, Folder>, media: set<string>, now: string)
    ensures var healed := ReconciledRows(rows, folders);
            var after := SweptRows(healed, folders, ActiveIds(healed), media, now);
            && after.Keys == rows.Keys
            && ActiveIds(after) == {}
            && forall id | id in after ::
                 after[id].status !in {Status.Starting, Status.Ingesting, Status.Transcribing}
  {
    var healed := ReconciledRows(rows, folders);
    var after := SweptRows(healed, folders, ActiveIds(healed), media, now);
    forall id | id in after ensures after[id].status !in {Status.Starting, Status.Ingesting, Status.Transcribing} {
      SweepEnds(healed[id], FolderIn(folders, id), media, now);
    }
  }

  /** One row and one folder after the sweep: an active job is decided by its own files, any
      other stays as it was. */
  predicate DecidedOrKept(row: Row, f: Folder, after: Row, g: Folder, media: set<string>, now: string) {
    if row.status in {Status.Starting, Status.Ingesting, Status.Transcribing} then Decided(row, f, after, g, media, now)
    else after == row && g == f
  }

  predicate AllDecided(rows: map<JobId, Row>, folders: map<JobId, Folder>, after: map<JobId, Row>,
                       settled: map<JobId, Folder>, media: set<string>, now: string)
  {
    && after.Keys == rows.Keys && settled.Keys == folders.Keys
    && (forall id | id in rows ::
          DecidedOrKept(rows[id], FolderIn(folders, id), after[id], FolderIn(settled, id), media, now))
    && (forall id | id in folders && id !in rows :: settled[id] == folders[id])
  }

  lemma SweepDecidesOne(rows: map<JobId, Row>, folders: map<JobId, Folder>, id: JobId, media: set<string>, now: string)
    requires id in rows
    ensures var ids := ActiveIds(rows);
            DecidedOrKept(rows[id], FolderIn(folders, id), SweptRows(rows, folders, ids, media, now)[id],
                          FolderIn(SweptFolders(folders, ids, media, now), id), media, now)
  {
    var f := FolderIn(folders, id);
    SweepDecides(rows[id], f, media, now);
    assert id in ActiveIds(rows) ==> SweptFolder(EMPTY_FOLDER, media, now) == EMPTY_FOLDER;
  }

  /** Over all jobs at once. */
  lemma SweepDecidesAll(rows: map<JobId, Row>, folders: map<JobId, Folder>, media: set<string>, now: string)
    ensures var ids := ActiveIds(rows);
            AllDecided(rows, folders, SweptRows(rows, folders, ids, media, now), SweptFolders(folders, ids, media, now),
                       media, now)
  {
    var ids := ActiveIds(rows);
    var after, settled := SweptRows(rows, folders, ids, media, now), SweptFolders(folders, ids, media, now);
    forall id | id in rows
      ensures DecidedOrKept(rows[id], FolderIn(folders, id), after[id], FolderIn(settled, id), media, now)
    {
      SweepDecidesOne(rows, folders, id, media, now);
    }
  }
}
