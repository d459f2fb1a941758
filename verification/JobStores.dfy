/** The job tables and folders as the service functions change them, one call at a time. */
module JobStores {
  import opened Wrappers
  import opened Jobs
  import opened Resume
  import opened Protocol
  import opened SoloRun
  import Chunker
  import opened Boot
  import opened RunJobs

  /** No queued row was created before row `id`. */
  predicate Earliest(rows: map<JobId, Row>, id: JobId) {
    && id in rows && rows[id].status == Status.Queued
    && forall k | k in rows && rows[k].status == Status.Queued :: rows[id].createdAt <= rows[k].createdAt
  }

  lemma {:induction false} SomeJobIsEarliest(rows: map<JobId, Row>, queued: set<JobId>)
    requires queued != {}
    requires forall k | k in queued :: k in rows && rows[k].status == Status.Queued
    ensures exists id :: id in queued && forall k | k in queued :: rows[id].createdAt <= rows[k].createdAt
    decreases queued
  {
    var k :| k in queued;
    if queued - {k} == {} {
      assert queued == {k};
    } else {
      SomeJobIsEarliest(rows, queued - {k});
      var id :| id in queued - {k} && forall l | l in queued - {k} :: rows[id].createdAt <= rows[l].createdAt;
      var first := if rows[id].createdAt <= rows[k].createdAt then id else k;
      assert first in queued && forall l | l in queued :: rows[first].createdAt <= rows[l].createdAt;
    }
  }

  class JobStore {
    var rows: map<JobId, Row>
    var folders: map<JobId, Folder>
    /** The registry of cancel flags. */
    var running: map<JobId, bool>
    var workSignal: bool
    /** The paths that name existing, non-empty files. */
    const media: set<string>

    constructor (media: set<string>)
      ensures rows == map[] && folders == map[] && running == map[] && !workSignal && this.media == media
    {
      rows, folders, running, workSignal := map[], map[], map[], false;
      this.media := media;
    }

    /** INSERT, then folder and manifest; if those fail the row is deleted again. */
    method CreateJob(id: JobId, upload: bool, createdAt: nat, sourceType: Option<string>, sourcePath: Option<string>,
                     now: string, fails: bool) returns (ok: bool)
      requires id !in rows
      modifies this`rows, this`folders
      ensures ok == !fails
      ensures fails ==> rows == old(rows) && folders == old(folders)
      ensures ok ==>
                rows == old(rows)[id := Row(if upload then Status.Uploading else Status.Queued, createdAt,
                                            if upload then Some("local") else sourceType,
                                            if upload then None else sourcePath,
                                            None, None, None, None, None, None, None, None)]
      ensures ok ==>
                && folders.Keys == old(folders).Keys + {id} && folders - {id} == old(folders) - {id}
                && folders[id] == FolderIn(old(folders), id).(manifest := folders[id].manifest)
                && folders[id].manifest
                    == Some(Manifest(id, None, None, None, None, None, None, [], false, Status.Queued,
                                                         None, Timestamps(now, None, None, None, None, None), None))
    {
      rows := rows[id := if upload then NewRow(Status.Uploading, createdAt, Some("local"), None)
                         else NewRow(Status.Queued, createdAt, sourceType, sourcePath)];
      ok := !fails;
      if fails {
        rows := rows - {id};
      } else {
        folders := folders[id := FolderIn(folders, id).(manifest := Some(EmptyManifest(id, now)))];
      }
    }

    method Enqueue(id: JobId)
      modifies this`rows, this`workSignal
      ensures rows == if id in old(rows)
                         && old(rows)[id].status in {Status.Uploading, Status.Created, Status.Queued}
                      then old(rows)[id := old(rows)[id].(status := Status.Queued)] else old(rows)
      ensures workSignal
    {
      if id in rows && PreActive(rows[id].status) {
        rows := rows[id := rows[id].(status := Status.Queued)];
      }
      workSignal := true;
    }

    /** SELECT the first queued job, then claim it. */
    method PullNext() returns (claimed: Option<JobId>)
      modifies this`rows
      ensures claimed.None? ==> rows == old(rows) && forall k | k in rows :: rows[k].status != Status.Queued
      ensures claimed.Some? ==>
                && Earliest(old(rows), claimed.value)
                && rows == old(rows)[claimed.value := old(rows)[claimed.value].(status := Status.Starting)]
    {
      var queued := set k | k in rows && rows[k].status == Status.Queued;
      if queued == {} {
        assert forall k | k in rows && rows[k].status == Status.Queued :: k in queued;
        return None;
      }
      SomeJobIsEarliest(rows, queued);
      var id :| id in queued && forall k | k in queued :: rows[id].createdAt <= rows[k].createdAt;
      rows := rows[id := rows[id].(status := Status.Starting)];
      claimed := Some(id);
    }

    method MarkFailed(id: JobId, error: string) returns (marked: bool)
      modifies this`rows
      ensures marked == (id in old(rows))
      ensures rows == if marked then old(rows)[id := old(rows)[id].(status := Status.Failed, error := Some(error))]
                      else old(rows)
    {
      marked := id in rows;
      if marked {
        rows := rows[id := rows[id].(status := Status.Failed, error := Some(error))];
      }
    }

    /** Row first, then the folder; `rest` is what the delete leaves behind. */
    method CancelJob(id: JobId, rest: Folder) returns (found: bool)
      requires Remains(rest, FolderIn(folders, id))
      modifies this`rows, this`folders
      ensures found == (id in old(rows))
      ensures rows == if found then old(rows)[id := old(rows)[id].(status := Status.Cancelled)] else old(rows)
      ensures folders == if found && rest == EMPTY_FOLDER then old(folders) - {id}
                         else if found then old(folders)[id := rest] else old(folders)
    {
      found := id in rows;
      if found {
        rows := rows[id := rows[id].(status := Status.Cancelled)];
        folders := if rest == EMPTY_FOLDER then folders - {id} else folders[id := rest];
      }
    }

    /** A job that is completed is never marked stale. */
    method MarkStale(id: JobId, stale: bool) returns (isStale: bool, marked: bool)
      modifies this`rows
      ensures isStale == marked == (stale && id in old(rows)
                                    && old(rows)[id].status !in {Status.Done, Status.Failed, Status.Cancelled})
      ensures rows == if marked then old(rows)[id := old(rows)[id].(status := Status.Failed, error := Some("stalled"))]
                      else old(rows)
    {
      if id !in rows || Terminal(rows[id].status) || !stale {
        return false, false;
      }
      marked := MarkFailed(id, "stalled");
      isStale := true;
    }

    /** Cancel: a queued job is cancelled and its folder removed; an active one has its
        flag raised if a run has registered; anything else is left alone. */
    method Cancel(id: JobId, rest: Folder) returns (status: Option<Status>)
      requires Remains(rest, FolderIn(folders, id))
      modifies this`rows, this`folders, this`running, this`workSignal
      ensures status == if id in rows then Some(rows[id].status) else None
      ensures id in old(rows) && old(rows)[id].status == Status.Queued ==>
                && rows == old(rows)[id := old(rows)[id].(status := Status.Cancelled)]
                && FolderIn(folders, id) == rest && workSignal && running == old(running)
      ensures !(id in old(rows) && old(rows)[id].status == Status.Queued) ==>
                rows == old(rows) && folders == old(folders) && workSignal == old(workSignal)
      ensures running == if id in old(running) && id in old(rows)
                            && old(rows)[id].status !in {Status.Done, Status.Failed, Status.Cancelled, Status.Queued}
                         then old(running)[id := true] else old(running)
    {
      if id !in rows {
        return None;
      }
      var found := rows[id].status;
      if Terminal(found) {
        return Some(found);
      }
      if found == Status.Queued {
        rows := rows[id := rows[id].(status := Status.Cancelled)];
        var _ := CancelJob(id, rest);
        workSignal := true;
        return Some(Status.Cancelled);
      }
      if id in running {
        running := running[id := true];
      }
      status := Some(rows[id].status);
    }

    /** Manifest first, row last. `None` is the missing manifest. */
    method UpdateStage(id: JobId, stage: Stage, patch: ManifestPatch, now: string) returns (updated: Option<Manifest>)
      modifies this`rows, this`folders
      ensures FolderIn(old(folders), id).manifest.None? ==>
                updated == None && rows == old(rows) && folders == old(folders)
      ensures FolderIn(old(folders), id).manifest.Some? ==>
                && updated == Some(Advance(FolderIn(old(folders), id).manifest.value, stage, patch, now))
                && folders == old(folders)[id := FolderIn(old(folders), id).(manifest := updated)]
                && rows == WithRow(old(rows), id, ProjectRow(RowIn(old(rows), id), updated.value))
    {
      if FolderIn(folders, id).manifest.None? {
        return None;
      }
      var next := Advance(folders[id].manifest.value, stage, patch, now);
      folders := folders[id := folders[id].(manifest := Some(next))];
      if id in rows {
        rows := rows[id := Project(rows[id], next)];
      }
      updated := Some(next);
    }

    /** Boot, first part: one folder after another. */
    method ReconcileAll() returns (summary: Summary)
      modifies this`rows
      ensures rows == ReconciledRows(old(rows), folders)
      ensures summary.scanned == |folders|
      ensures summary.updated == |set id | id in rows && rows[id] != old(rows)[id]|
      ensures forall id :: id in summary.missingManifests <==> id in folders && folders[id].manifest.None?
    {
      summary := Summary(0, 0, {});
      ghost var before := rows;
      var found := folders;
      var todo := found.Keys;
      ReconciledNone(rows, found);
      while todo != {}
        invariant todo <= found.Keys
        invariant ReconciledUpTo(before, found, todo, rows, summary)
        decreases todo
      {
        var id :| id in todo;
        ReconcileStep(before, found, todo, id, rows, summary);
        summary := HealOne(id, found[id].manifest, summary);
        todo := todo - {id};
      }
      ReconciledAll(before, found, rows, summary);
      DriftedAreChanged(before, found);
    }

    /** One folder: count it, and heal the row if it has drifted. */
    method HealOne(id: JobId, manifest: Option<Manifest>, so: Summary) returns (summary: Summary)
      modifies this`rows
      ensures rows == HealedRows(old(rows), manifest, id)
      ensures summary == Counted(so, old(rows), manifest, id)
    {
      summary := so.(scanned := so.scanned + 1);
      if manifest.None? {
        summary := summary.(missingManifests := summary.missingManifests + {id});
      } else if id in rows && Drifted(rows[id], manifest.value) {
        rows := rows[id := Heal(rows[id], manifest.value)];
        summary := summary.(updated := summary.updated + 1);
      }
    }

    /** Boot, second part: every active job is advanced to done or failed. */
    method MarkInterruptedFailed(now: string) returns (swept: nat)
      modifies this`rows, this`folders
      ensures rows == SweptRows(old(rows), old(folders), ActiveIds(old(rows)), media, now)
      ensures folders == SweptFolders(old(folders), ActiveIds(old(rows)), media, now)
      ensures AllDecided(old(rows), old(folders), rows, folders, media, now)
      ensures swept == |ActiveIds(old(rows))|
    {
      swept := 0;
      ghost var rows0, folders0 := rows, folders;
      var todo := ActiveIds(rows);
      ghost var active, done := todo, {};
      while todo != {}
        invariant done + todo == active && done !! todo
        invariant rows == SweptRows(rows0, folders0, done, media, now)
        invariant folders == SweptFolders(folders0, done, media, now)
        invariant swept == |done|
        decreases todo
      {
        var id :| id in todo;
        SweepStep(rows0, folders0, done, id, media, now);
        SweepOne(id, now);
        todo, done := todo - {id}, done + {id};
        swept := swept + 1;
      }
      assert done == active;
      SweepDecidesAll(rows0, folders0, media, now);
    }

    /** The job part of a boot: reconcile, then sweep. Nothing is left for a second one
        to settle. */
    method Boot(now: string) returns (summary: Summary, swept: nat)
      modifies this`rows, this`folders
      ensures AllDecided(ReconciledRows(old(rows), old(folders)), old(folders), rows, folders, media, now)
      ensures forall id | id in rows :: rows[id].status !in {Status.Starting, Status.Ingesting, Status.Transcribing}
      ensures summary.scanned == |old(folders)|
      ensures summary.updated == |set id | id in old(rows)
              && ReconciledRows(old(rows), old(folders))[id] != old(rows)[id]|
      ensures forall id :: id in summary.missingManifests <==> id in old(folders) && old(folders)[id].manifest.None?
      ensures swept == |ActiveIds(ReconciledRows(old(rows), old(folders)))|
    {
      BootLeavesNoActiveRow(rows, folders, media, now);
      summary := ReconcileAll();
      swept := MarkInterruptedFailed(now);
    }

    method SweepOne(id: JobId, now: string)
      requires id in rows
      modifies this`rows, this`folders
      ensures rows == old(rows)[id := SweptRow(old(rows)[id], FolderIn(old(folders), id), media, now)]
      ensures folders == if id in old(folders) then old(folders)[id := SweptFolder(old(folders)[id], media, now)]
                         else old(folders)
    {
      var f := FolderIn(folders, id);
      if f.manifest.None? {
        var _ := MarkFailed(id, INTERRUPTED_ERROR);
        if id in folders {
          assert folders == folders[id := folders[id]];
        }
      } else if OnlyDoneMissing(f.manifest.value, f, media) {
        var _ := UpdateStage(id, Stage.Done, NO_PATCH, now);
      } else {
        var _ := MarkFailed(id, INTERRUPTED_ERROR);
        folders := folders[id := f.(manifest := Some(Spoiled(f.manifest.value)))];
      }
    }

    /** What the store holds of one job. */
    function StoresOf(id: JobId): Stores
      reads this
    {
      Stores(RowIn(rows, id), FolderIn(folders, id))
    }

    /** Read the manifest, walk the stages, and do what is missing. */
    method RunStages(id: JobId, around: Around, flagged: bool) returns (exit: Exit)
      modifies this`rows, this`folders
      ensures rows - {id} == old(rows) - {id} && folders - {id} == old(folders) - {id}
      ensures (StoresOf(id), exit) == TryStores(media, old(StoresOf(id)), around, flagged)
    {
      if FolderIn(folders, id).manifest.None? {
        return Raised;
      }
      var m := folders[id].manifest.value;
      var point := InferResumePoint(m, folders[id], media);
      if point.None? {
        return Returned;
      }
      var skipIngested := IsStageComplete(Stage.Ingested, m, folders[id], media);
      var skipTranscribed := IsStageComplete(Stage.Transcribed, m, folders[id], media);
      if !skipIngested {
        // The source check that follows looks at the same files.
        IngestBranchOnlyRaises(m, folders[id], media);
        return Raised;
      }
      if !skipTranscribed {
        exit := TranscribeAndRecord(id, m, around);
        return;
      }
      if point == Some(Stage.Done) {
        if flagged {
          return CancelledOut;
        }
        var _ := UpdateStage(id, Stage.Done, NO_PATCH, around.now);
      }
      exit := Returned;
    }

    method TranscribeAndRecord(id: JobId, m: Manifest, around: Around) returns (exit: Exit)
      requires FolderIn(folders, id).manifest.Some?
      modifies this`rows, this`folders
      ensures rows - {id} == old(rows) - {id} && folders - {id} == old(folders) - {id}
      ensures (StoresOf(id), exit) == TranscribeStores(old(StoresOf(id)), m, around)
    {
      if m.sourcePath.None? {
        return Raised;
      }
      var run := Chunker.TranscribeFile(around.Work(), around.detect);
      match run.outcome
      case Cancelled(_) =>
        return CancelledOut;
      case Failed(_) =>
        return Raised;
      case Finished(t) =>
        folders := folders[id := folders[id].(transcript := Parsed(t))];
        var _ := UpdateStage(id, Stage.Transcribed, TranscribedPatch(t), around.now);
        var _ := UpdateStage(id, Stage.Done, NO_PATCH, around.now);
        return Returned;
    }

    /** The try block and the handlers of its two kinds of exception. */
    method TryRun(id: JobId, around: Around, flagged: bool) returns (raised: bool)
      requires Remains(around.rest, FolderIn(folders, id))
      modifies this`rows, this`folders
      ensures rows - {id} == old(rows) - {id} && folders - {id} == old(folders) - {id}
      ensures StoresOf(id) == RunStores(media, old(StoresOf(id)), around, flagged)
      ensures raised == TryStores(media, old(StoresOf(id)), around, flagged).1.Raised?
    {
      var exit := RunStages(id, around, flagged);
      if exit.CancelledOut? {
        var _ := CancelJob(id, around.rest);
      } else if exit.Raised? {
        var _ := MarkFailed(id, around.error);
      }
      raised := exit.Raised?;
    }

    /** One call of `run_job`, cancel flag and registry included, is a run of the
        protocol from the claim to its end; every other job is left alone. */
    method RunJob(id: JobId, around: Around, flagged: bool) returns (raised: bool)
      requires around.jobId == id
      requires !flagged ==> forall k: nat :: !around.cancelled(k)
      requires Remains(around.rest, FolderIn(folders, id))
      modifies this`rows, this`folders, this`running
      ensures rows - {id} == old(rows) - {id} && folders - {id} == old(folders) - {id}
      ensures running == old(running) - {id}
      ensures StoresOf(id) == RunStores(media, old(StoresOf(id)), around, flagged)
      ensures raised == TryStores(media, old(StoresOf(id)), around, flagged).1.Raised?
      ensures Ends(media, StartOf(old(StoresOf(id)), flagged), 0, Always(InputOf(around)), EndOf(StoresOf(id)))
    {
      ghost var before := StoresOf(id);
      running := running[id := flagged];
      raised := TryRun(id, around, flagged);
      running := running - {id};
      RunStoresIsARun(media, before, around, flagged);
    }
  }
}
