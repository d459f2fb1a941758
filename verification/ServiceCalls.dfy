/** Each service call, left alone, step by step: what the steps of the protocol come to,
    field by field. */
module ServiceCalls {
  import opened Wrappers
  import opened Stt
  import opened Jobs
  import opened Resume
  import opened Boot
  import opened Protocol

  /** The steps one after another, with nothing in between. */
  function Taken(id: JobId, media: set<string>, j: Option<Job>, steps: seq<Step>): Option<Job>
    decreases |steps|
  {
    if steps == [] || j.None? then j else Taken(id, media, Apply(id, media, j.value, steps[0]), steps[1..])
  }

  lemma TakeOne(id: JobId, media: set<string>, j: Job, step: Step, rest: seq<Step>)
    ensures Taken(id, media, Some(j), [step] + rest) == Taken(id, media, Apply(id, media, j, step), rest)
  {
    assert ([step] + rest)[1..] == rest;
  }

  predicate Takes(id: JobId, media: set<string>, j: Job, step: Step, k: Job) {
    Apply(id, media, j, step) == Some(k)
  }

  /** A way from job to job, a step at a time. */
  lemma {:induction false} TakeAll(id: JobId, media: set<string>, jobs: seq<Job>, steps: seq<Step>)
    requires |jobs| == |steps| + 1
    requires forall i :: 0 <= i < |steps| ==> Takes(id, media, jobs[i], steps[i], jobs[i + 1])
    ensures Taken(id, media, Some(jobs[0]), steps) == Some(jobs[|steps|])
    decreases |steps|
  {
    if steps != [] {
      assert Takes(id, media, jobs[0], steps[0], jobs[1]);
      TakeAll(id, media, jobs[1..], steps[1..]);
    }
  }

  // ---------------------------------------------------------------- creation

  /** The manifest of a new job: its id, when it was queued, and nothing else. */
  function BareManifest(id: JobId, now: string): Manifest {
    Manifest(id, None, None, None, None, None, None, [], false, Status.Queued, None,
             Timestamps(now, None, None, None, None, None), None)
  }

  /** A creation inserts the row and then writes the manifest; when that fails the row
      goes again. */
  lemma CreateAlone(id: JobId, media: set<string>, createdAt: nat, sourceType: Option<string>,
                    sourcePath: Option<string>, p: Pid, now: string)
    ensures var j := NewJob(false, createdAt, sourceType, sourcePath, p);
            && j.row == Some(Row(Status.Queued, createdAt, sourceType, sourcePath,
                                 None, None, None, None, None, None, None, None))
            && Taken(id, media, Some(j), [Create(p, WriteEmpty(now))])
               == Some(Job(j.row, Folder(Some(BareManifest(id, now)), Missing, false, false, {}), map[], None, false,
                           Up))
            && Taken(id, media, Some(j), [Create(p, CreateFails), Create(p, Compensate)])
               == Some(Job(None, Folder(None, Missing, false, false, {}), map[], None, false, Up))
  {
    var j := NewJob(false, createdAt, sourceType, sourcePath, p);
    var made := Job(j.row, Folder(Some(BareManifest(id, now)), Missing, false, false, {}), map[], None, false, Up);
    var failing := SetProc(j, p, Creator(Compensating));
    var gone := Job(None, Folder(None, Missing, false, false, {}), map[], None, false, Up);
    assert j.procs - {p} == map[] == failing.procs - {p};
    assert Takes(id, media, j, Create(p, WriteEmpty(now)), made);
    TakeAll(id, media, [j, made], [Create(p, WriteEmpty(now))]);
    assert Takes(id, media, j, Create(p, CreateFails), failing)
        && Takes(id, media, failing, Create(p, Compensate), gone);
    TakeAll(id, media, [j, failing, gone], [Create(p, CreateFails), Create(p, Compensate)]);
  }

  /** An upload in the middle of its steps. */
  function UploadJob(status: Status, createdAt: nat, name: Option<string>, m: Option<Manifest>, nonEmpty: bool,
                     procs: map<Pid, Proc>): Job
  {
    Job(Some(Row(status, createdAt, Some("local"), None, name, None, None, None, None, None, None, None)),
        Folder(m, Missing, nonEmpty, false, {}), procs, None, false, Up)
  }

  function DescribedManifest(id: JobId, now: string, path: string, filename: string): Manifest {
    BareManifest(id, now).(sourceType := Some("local"), sourcePath := Some(path), originalFilename := Some(filename))
  }

  function UploadSteps(p: Pid, now: string, nonEmpty: bool, path: string, filename: string): seq<Step> {
    [Create(p, WriteEmpty(now)), Create(p, StreamSource(nonEmpty)), Create(p, ReadForSource),
     Create(p, WriteSource(path, filename)), Create(p, NameRow), Create(p, EnqueueUpload)]
  }

  function Uploading(createdAt: nat, name: Option<string>, m: Option<Manifest>, nonEmpty: bool, p: Pid,
                     pc: CreatePc): Job {
    UploadJob(Status.Uploading, createdAt, name, m, nonEmpty, map[p := Creator(pc)])
  }

  lemma NextProc(p: Pid, x: Proc, y: Proc)
    ensures map[p := x][p := y] == map[p := y] && map[p := x] - {p} == map[]
  {
  }

  lemma UploadStreams(id: JobId, media: set<string>, createdAt: nat, p: Pid, now: string, nonEmpty: bool)
    ensures var bare := BareManifest(id, now);
            var made := Uploading(createdAt, None, Some(bare), false, p, Streaming);
            var streamed := Uploading(createdAt, None, Some(bare), nonEmpty, p, ReadingForSource);
            && Takes(id, media, NewJob(true, createdAt, None, None, p), Create(p, WriteEmpty(now)), made)
            && Takes(id, media, made, Create(p, StreamSource(nonEmpty)), streamed)
            && Takes(id, media, streamed, Create(p, ReadForSource),
                     Uploading(createdAt, None, Some(bare), nonEmpty, p, WritingSource(bare)))
  {
    var bare := BareManifest(id, now);
    NextProc(p, Creator(MakingManifest(true)), Creator(Streaming));
    NextProc(p, Creator(Streaming), Creator(ReadingForSource));
    NextProc(p, Creator(ReadingForSource), Creator(WritingSource(bare)));
  }

  lemma UploadDescribes(id: JobId, media: set<string>, createdAt: nat, p: Pid, now: string, nonEmpty: bool,
                        path: string,
                        filename: string)
    ensures var bare := BareManifest(id, now);
            var described := Some(DescribedManifest(id, now, path, filename));
            && Takes(id, media, Uploading(createdAt, None, Some(bare), nonEmpty, p, WritingSource(bare)),
                     Create(p, WriteSource(path, filename)),
                     Uploading(createdAt, None, described, nonEmpty, p, NamingRow(filename)))
            && Takes(id, media, Uploading(createdAt, None, described, nonEmpty, p, NamingRow(filename)),
                     Create(p, NameRow),
                     Uploading(createdAt, Some(filename), described, nonEmpty, p, Enqueuing))
  {
    NextProc(p, Creator(WritingSource(BareManifest(id, now))), Creator(NamingRow(filename)));
    NextProc(p, Creator(NamingRow(filename)), Creator(Enqueuing));
  }

  lemma UploadEnqueues(id: JobId, media: set<string>, createdAt: nat, p: Pid, m: Option<Manifest>, nonEmpty: bool,
                       name: Option<string>)
    ensures Takes(id, media, Uploading(createdAt, name, m, nonEmpty, p, Enqueuing), Create(p, EnqueueUpload),
                  UploadJob(Status.Queued, createdAt, name, m, nonEmpty, map[]))
  {
    NextProc(p, Creator(Enqueuing), Creator(Enqueuing));
  }

  /** An upload left alone ends queued: the file lies in the folder, the manifest names the
      stored path as source and the dropped name as original name, the row has the name
      and the type but no path, and nothing else is set. */
  lemma UploadAlone(id: JobId, media: set<string>, createdAt: nat, p: Pid, now: string, nonEmpty: bool, path: string,
                    filename: string)
    ensures Taken(id, media, Some(NewJob(true, createdAt, None, None, p)),
                  UploadSteps(p, now, nonEmpty, path, filename))
            == Some(UploadJob(Status.Queued, createdAt, Some(filename),
                              Some(DescribedManifest(id, now, path, filename)),
                              nonEmpty, map[]))
    ensures DescribedManifest(id, now, path, filename).sourcePath == Some(path)
    ensures DescribedManifest(id, now, path, filename).originalFilename == Some(filename)
  {
    var bare := BareManifest(id, now);
    var described := Some(DescribedManifest(id, now, path, filename));
    UploadStreams(id, media, createdAt, p, now, nonEmpty);
    UploadDescribes(id, media, createdAt, p, now, nonEmpty, path, filename);
    UploadEnqueues(id, media, createdAt, p, described, nonEmpty, Some(filename));
    TakeAll(id, media,
            [NewJob(true, createdAt, None, None, p), Uploading(createdAt, None, Some(bare), false, p, Streaming),
             Uploading(createdAt, None, Some(bare), nonEmpty, p, ReadingForSource),
             Uploading(createdAt, None, Some(bare), nonEmpty, p, WritingSource(bare)),
             Uploading(createdAt, None, described, nonEmpty, p, NamingRow(filename)),
             Uploading(createdAt, Some(filename), described, nonEmpty, p, Enqueuing),
             UploadJob(Status.Queued, createdAt, Some(filename), described, nonEmpty, map[])],
            UploadSteps(p, now, nonEmpty, path, filename));
  }

  // ---------------------------------------------------------------- queue

  /** Enqueue queues a created or queued job; an uploading one is queued by its own upload
      only, and no other row changes. */
  lemma EnqueueAlone(id: JobId, media: set<string>, j: Job)
    requires j.phase == Up && j.row.Some?
    ensures var row := j.row.value;
            Apply(id, media, j, Enqueue)
            == if row.status == Status.Uploading then None
               else if row.status in {Status.Created, Status.Queued} then
                 Some(j.(row := Some(row.(status := Status.Queued))))
               else Some(j)
  {
    assert j.(row := j.row) == j;
  }

  /** A worker's SELECT and UPDATE: a queued row becomes starting, the worker's process a
      run that has not registered, and the job counts as claimed. */
  lemma PullAlone(id: JobId, media: set<string>, j: Job, p: Pid)
    requires j.phase == Up && j.row.Some? && p !in j.procs
    ensures Apply(id, media, j, Select(p)).Some? <==> j.row.value.status == Status.Queued
    ensures j.row.value.status == Status.Queued ==>
              Taken(id, media, Some(j), [Select(p), Claim(p)])
              == Some(j.(row := Some(j.row.value.(status := Status.Starting)), claimed := true,
                         procs := j.procs[p := Runner(Claimed, false)]))
  {
    if j.row.value.status == Status.Queued {
      var k := SetProc(j, p, Puller);
      var claimed := j.(row := Some(j.row.value.(status := Status.Starting)), claimed := true,
                        procs := j.procs[p := Runner(Claimed, false)]);
      assert k.procs[p := Runner(Claimed, false)] == claimed.procs;
      assert Takes(id, media, j, Select(p), k) && Takes(id, media, k, Claim(p), claimed);
      TakeAll(id, media, [j, k, claimed], [Select(p), Claim(p)]);
    }
  }

  lemma LostClaim(id: JobId, media: set<string>, j: Job, p: Pid)
    requires j.phase == Up && p in j.procs && j.procs[p].Puller? && (j.row.None? || j.row.value.status != Status.Queued)
    ensures Apply(id, media, j, Claim(p)) == Some(j.(procs := j.procs - {p}))
  {
  }

  /** A cancel of a queued job: the row says cancelled, the folder is what the delete leaves. */
  lemma CancelQueuedAlone(id: JobId, media: set<string>, j: Job, p: Pid, rest: Folder)
    requires j.phase == Up && j.row.Some? && j.row.value.status == Status.Queued && p !in j.procs
    requires Remains(rest, j.folder)
    ensures Taken(id, media, Some(j),
                  [Cancel(p, CancelSelect), Cancel(p, CancelQueued), Cancel(p, CancelStep.CancelJob),
                                       Cancel(p, CancelRemove(rest))])
            == Some(j.(row := Some(j.row.value.(status := Status.Cancelled)), folder := rest))
  {
    var cancelled := j.(row := Some(j.row.value.(status := Status.Cancelled)));
    var j1, j2 := SetProc(j, p, Canceller(FoundQueued)), SetProc(cancelled, p, Canceller(WonQueued));
    var j3 := SetProc(cancelled, p, Canceller(RemovingFolder));
    CancelWins(id, media, j, p, j1, j2);
    CancelRemoves(id, media, cancelled, p, j2, j3, rest);
    TakeAll(id, media, [j, j1, j2, j3, cancelled.(folder := rest)],
            [Cancel(p, CancelSelect), Cancel(p, CancelQueued), Cancel(p, CancelStep.CancelJob),
             Cancel(p, CancelRemove(rest))]);
  }

  lemma CancelWins(id: JobId, media: set<string>, j: Job, p: Pid, found: Job, won: Job)
    requires j.phase == Up && j.row.Some? && j.row.value.status == Status.Queued && p !in j.procs
    requires found == SetProc(j, p, Canceller(FoundQueued))
    requires won == SetProc(j.(row := Some(j.row.value.(status := Status.Cancelled))), p, Canceller(WonQueued))
    ensures Takes(id, media, j, Cancel(p, CancelSelect), found) && Takes(id, media, found, Cancel(p, CancelQueued), won)
  {
    assert found.procs[p := Canceller(WonQueued)] == won.procs;
  }

  lemma CancelRemoves(id: JobId, media: set<string>, j: Job, p: Pid, won: Job, removing: Job, rest: Folder)
    requires j.phase == Up && j.row.Some? && j.row.value.status == Status.Cancelled && p !in j.procs
    requires won == SetProc(j, p, Canceller(WonQueued)) && removing == SetProc(j, p, Canceller(RemovingFolder))
    requires Remains(rest, j.folder)
    ensures Takes(id, media, won, Cancel(p, CancelStep.CancelJob), removing)
    ensures Takes(id, media, removing, Cancel(p, CancelRemove(rest)), j.(folder := rest))
  {
    assert won.procs[p := Canceller(RemovingFolder)] == removing.procs;
    assert removing.procs - {p} == j.procs;
  }

  /** A cancel of any other job: nothing at all for a missing or ended one, and for an
      active one the flag of its registered run, if there is one. */
  lemma CancelActiveAlone(id: JobId, media: set<string>, j: Job, p: Pid)
    requires j.phase == Up && p !in j.procs && (j.row.None? || j.row.value.status != Status.Queued)
    requires j.running.Some? ==> j.running.value in j.procs && j.procs[j.running.value].Runner?
    ensures var ended := j.row.None? || j.row.value.status in {Status.Done, Status.Failed, Status.Cancelled};
            if ended then Apply(id, media, j, Cancel(p, CancelSelect)) == Some(j)
            else
              Taken(id, media, Some(j), [Cancel(p, CancelSelect), Cancel(p, CancelActive)])
              == Some(if j.running.None? then j
                      else j.(procs := j.procs[j.running.value := j.procs[j.running.value].(flag := true)]))
  {
    var k := SetProc(j, p, Canceller(FoundActive));
    assert k.procs - {p} == j.procs;
    if j.running.Some? {
      var q := j.running.value;
      assert k.procs[q := k.procs[q].(flag := true)] - {p} == j.procs[q := j.procs[q].(flag := true)];
    }
    var after := if j.running.None? then j
                 else j.(procs := j.procs[j.running.value := j.procs[j.running.value].(flag := true)]);
    if !(j.row.None? || Terminal(j.row.value.status)) {
      assert Takes(id, media, j, Cancel(p, CancelSelect), k) && Takes(id, media, k, Cancel(p, CancelActive), after);
      TakeAll(id, media, [j, k, after], [Cancel(p, CancelSelect), Cancel(p, CancelActive)]);
    }
  }

  /** A watchdog tick fails exactly the jobs that are starting, ingesting or transcribing and
      stale. */
  lemma WatchAlone(id: JobId, media: set<string>, j: Job, p: Pid, stale: bool)
    requires j.phase == Up && j.row.Some? && p !in j.procs
    ensures Apply(id, media, j, Watch(p, WatchSelect)).Some?
            <==> j.row.value.status in {Status.Starting, Status.Ingesting, Status.Transcribing}
    ensures j.row.value.status in {Status.Starting, Status.Ingesting, Status.Transcribing} ==>
              && (!stale ==> Taken(id, media, Some(j), [Watch(p, WatchSelect), Watch(p, WatchCheck(false))]) == Some(j))
              && (stale ==>
                    Taken(id, media, Some(j), [Watch(p, WatchSelect), Watch(p, WatchCheck(true)), Watch(p, WatchMark)])
                    == Some(j.(row := Some(j.row.value.(status := Status.Failed, error := Some("stalled"))))))
  {
    var seen, found := SetProc(j, p, Watcher(false)), SetProc(j, p, Watcher(true));
    assert seen.procs - {p} == j.procs && seen.procs[p := Watcher(true)] == found.procs && found.procs - {p} == j.procs;
    if Active(j.row.value.status) {
      assert Takes(id, media, j, Watch(p, WatchSelect), seen);
      if stale {
        var failed := j.(row := Some(j.row.value.(status := Status.Failed, error := Some("stalled"))));
        assert Takes(id, media, seen, Watch(p, WatchCheck(true)), found);
        assert Takes(id, media, found, Watch(p, WatchMark), failed);
        TakeAll(id, media, [j, seen, found, failed],
                [Watch(p, WatchSelect), Watch(p, WatchCheck(true)), Watch(p, WatchMark)]);
      } else {
        assert Takes(id, media, seen, Watch(p, WatchCheck(false)), j);
        TakeAll(id, media, [j, seen, j], [Watch(p, WatchSelect), Watch(p, WatchCheck(false))]);
      }
    }
  }

  /** Between its SELECT and its mark the watchdog looks again: a job that has ended in the
      meantime, or is not stale, is let go. */
  lemma WatchLooksAgain(id: JobId, media: set<string>, j: Job, p: Pid, stale: bool)
    requires j.phase == Up && p in j.procs && j.procs[p] == Watcher(false)
    ensures Apply(id, media, j, Watch(p, WatchCheck(stale)))
            == Some(if stale && j.row.Some?
                    && j.row.value.status !in {Status.Done, Status.Failed, Status.Cancelled} then
                      j.(procs := j.procs[p := Watcher(true)])
                    else j.(procs := j.procs - {p}))
  {
  }

  // ---------------------------------------------------------------- the ingest stage

  /** A run whose walk says that the source is missing, when it looks for itself: it records
      the stage exactly when the source is a file that is there and not empty, and not a
      video link; otherwise it raises. */
  lemma IngestAlone(media: set<string>, j: Job, p: Pid, m: Manifest, at: Stage, skipTranscribed: bool, flag: bool,
                    i: Input)
    ensures var to := RunMove(media, j, p, Resuming(m, at, false, skipTranscribed), flag, i);
            && to.Some? && to.value.row == j.row && to.value.folder == j.folder && to.value.running == j.running
            && to.value.pc
               == if m.sourceType != Some("youtube") && m.sourcePath.Some? && m.sourcePath.value != ""
                     && m.sourcePath.value in media then
                    Reading(Stage.Ingested, ManifestPatch(None, Some(m.sourcePath), None, None, None, None),
                            ThenReread(at, skipTranscribed))
                  else Raising
  {
  }

  // ---------------------------------------------------------------- boot


  /** What boot's steps make of one job, whatever way the sweep takes. */
  lemma BootAlone(id: JobId, media: set<string>, j: Job, now: string) returns (steps: seq<Step>, k: Job)
    requires j.phase == Down && j.row.Some?
    ensures Taken(id, media, Some(j), steps) == Some(k) && k.phase == Ready && k.row.Some?
    ensures k == j.(row := k.row, folder := k.folder, phase := Ready)
    ensures var healed := HealRow(j.row, j.folder.manifest).value;
            DecidedOrKept(healed, j.folder, k.row.value, k.folder, media, now)
  {
    var healed := HealRow(j.row, j.folder.manifest).value;
    var j1 := j.(row := Some(healed), phase := Reconciled);
    assert Apply(id, media, j, Step.Boot(Reconcile)) == Some(j1);
    var rest;
    rest, k := SweepAlone(id, media, j1, now);
    steps := [Step.Boot(Reconcile)] + rest;
    TakeOne(id, media, j, Step.Boot(Reconcile), rest);
  }

  lemma SweepAlone(id: JobId, media: set<string>, j: Job, now: string) returns (steps: seq<Step>, k: Job)
    requires j.phase == Reconciled && j.row.Some?
    ensures Taken(id, media, Some(j), steps) == Some(k)
    ensures k.row.Some? && k == j.(row := k.row, folder := k.folder, phase := Ready)
    ensures DecidedOrKept(j.row.value, j.folder, k.row.value, k.folder, media, now)
  {
    var read := Step.Boot(SweepRead(now));
    if !Active(j.row.value.status) {
      k, steps := j.(phase := Ready), [read] + [];
      TakeOne(id, media, j, read, []);
    } else if j.folder.manifest.None? {
      k := j.(row := FailRow(j.row, INTERRUPTED_ERROR), phase := Ready);
      steps := [read] + ([Step.Boot(SweepFail)] + []);
      TakeOne(id, media, j, read, [Step.Boot(SweepFail)] + []);
      TakeOne(id, media, j.(phase := SweepFailing(None)), Step.Boot(SweepFail), []);
    } else {
      SweepDecides(j.row.value, j.folder, media, now);
      if OnlyDoneMissing(j.folder.manifest.value, j.folder, media) {
        steps, k := SweepToDone(id, media, j, now);
      } else {
        steps, k := SweepToFailed(id, media, j, now);
      }
    }
  }

  lemma SweepToDone(id: JobId, media: set<string>, j: Job, now: string) returns (steps: seq<Step>, k: Job)
    requires j.phase == Reconciled && j.row.Some? && Active(j.row.value.status) && j.folder.manifest.Some?
    requires OnlyDoneMissing(j.folder.manifest.value, j.folder, media)
    ensures Taken(id, media, Some(j), steps) == Some(k)
    ensures k == j.(row := Some(SweptRow(j.row.value, j.folder, media, now)),
                    folder := SweptFolder(j.folder, media, now), phase := Ready)
  {
    var read, write, project := Step.Boot(SweepRead(now)), Step.Boot(SweepWrite), Step.Boot(SweepProject);
    var next := Advance(j.folder.manifest.value, Stage.Done, NO_PATCH, now);
    var j1 := j.(phase := SweepWriting(next));
    var j2 := j.(folder := j.folder.(manifest := Some(next)), phase := SweepProjecting(next));
    k := j2.(row := Some(Project(j.row.value, next)), phase := Ready);
    steps := [read] + ([write] + ([project] + []));
    TakeOne(id, media, j, read, [write] + ([project] + []));
    TakeOne(id, media, j1, write, [project] + []);
    TakeOne(id, media, j2, project, []);
  }

  lemma SweepToFailed(id: JobId, media: set<string>, j: Job, now: string) returns (steps: seq<Step>, k: Job)
    requires j.phase == Reconciled && j.row.Some? && Active(j.row.value.status) && j.folder.manifest.Some?
    requires !OnlyDoneMissing(j.folder.manifest.value, j.folder, media)
    ensures Taken(id, media, Some(j), steps) == Some(k)
    ensures k == j.(row := Some(SweptRow(j.row.value, j.folder, media, now)),
                    folder := SweptFolder(j.folder, media, now), phase := Ready)
  {
    var read, fail, spoil := Step.Boot(SweepRead(now)), Step.Boot(SweepFail), Step.Boot(SweepSpoil);
    var m := j.folder.manifest.value;
    var j1 := j.(phase := SweepFailing(Some(m)));
    var j2 := j.(row := FailRow(j.row, INTERRUPTED_ERROR), phase := SweepSpoiling(m));
    k := j2.(folder := j.folder.(manifest := Some(Spoiled(m))), phase := Ready);
    steps := [read] + ([fail] + ([spoil] + []));
    TakeOne(id, media, j, read, [fail] + ([spoil] + []));
    TakeOne(id, media, j1, fail, [spoil] + []);
    TakeOne(id, media, j2, spoil, []);
  }
}
