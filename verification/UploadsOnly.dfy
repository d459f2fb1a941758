/** Only uploads can be transcribed: a job that was created with a source path keeps it
    in its row alone, and its runs fail. */
module UploadsOnly {
  import opened Wrappers
  import opened Jobs
  import opened Resume
  import opened Protocol
  import opened ProtocolInvariant
  import opened RunJobs
  import opened SystemRun

  /** A manifest no upload has described. */
  predicate BareManifest(m: Manifest) {
    m.sourcePath.None? && (m.currentStage == None || m.currentStage == Some(Stage.Failed))
  }

  predicate BareFolder(f: Folder) {
    && (f.manifest.Some? ==> BareManifest(f.manifest.value))
    && !HasTranscript(f) && !f.hasSource
  }

  predicate BareProc(proc: Proc) {
    match proc
    case Creator(pc) => pc == MakingManifest(false) || pc == Compensating
    case Runner(pc, _) =>
      || pc.Claimed? || pc.Registered? || pc.Raising? || pc.Finishing?
      || (pc.Resuming? && !pc.skipIngested && pc.m.sourcePath.None?)
    case _ => true
  }

  predicate BarePhase(phase: Phase) {
    match phase
    case SweepWriting(_) => false
    case SweepProjecting(_) => false
    case SweepFailing(found) => found.Some? ==> BareManifest(found.value)
    case SweepSpoiling(left) => BareManifest(left)
    case _ => true
  }

  /** A job without a source anywhere but in its row: it has no transcript and is not done. */
  ghost predicate Bare(j: Job) {
    && BareFolder(j.folder) && !RowIs(j, Status.Done)
    && BarePhase(j.phase)
    && forall p | p in j.procs :: BareProc(j.procs[p])
  }

  lemma NothingIsComplete(m: Manifest, f: Folder, media: set<string>)
    requires BareManifest(m) && BareFolder(f)
    ensures !IsStageComplete(Stage.Ingested, m, f, media)
    ensures InferResumePoint(m, f, media) == Some(Stage.Ingested)
    ensures !SourceAccepted(m, media)
  {
  }

  lemma RunKeepsBare(media: set<string>, j: Job, p: Pid, i: Input)
    requires Bare(j) && p in j.procs && j.procs[p].Runner? && ApplyRun(media, j, p, i).Some?
    ensures Bare(ApplyRun(media, j, p, i).value)
  {
    assert BareProc(j.procs[p]);
    if j.folder.manifest.Some? {
      NothingIsComplete(j.folder.manifest.value, j.folder, media);
    }
  }

  lemma CreateKeepsBare(id: JobId, j: Job, p: Pid, s: CreateStep)
    requires Bare(j) && p in j.procs && j.procs[p].Creator? && ApplyCreate(id, j, p, s).Some?
    ensures Bare(ApplyCreate(id, j, p, s).value)
  {
    assert BareProc(j.procs[p]);
  }

  lemma CancelKeepsBare(j: Job, p: Pid, s: CancelStep)
    requires Bare(j) && ApplyCancel(j, p, s).Some?
    ensures Bare(ApplyCancel(j, p, s).value)
  {
  }

  lemma BootKeepsBare(media: set<string>, j: Job, s: BootStep)
    requires Bare(j) && ApplyBoot(media, j, s).Some?
    ensures Bare(ApplyBoot(media, j, s).value)
  {
    if j.folder.manifest.Some? {
      NothingIsComplete(j.folder.manifest.value, j.folder, media);
    }
  }

  /** No step of anything gives such a job a source. */
  lemma StepKeepsBare(id: JobId, media: set<string>, j: Job, s: Step)
    requires Bare(j) && Apply(id, media, j, s).Some?
    ensures Bare(Apply(id, media, j, s).value)
  {
    match s
    case Boot(b) => BootKeepsBare(media, j, b);
    case Create(p, c) => CreateKeepsBare(id, j, p, c);
    case Run(p, i) => RunKeepsBare(media, j, p, i);
    case Cancel(p, c) => CancelKeepsBare(j, p, c);
    case _ =>
  }

  lemma NextKeepsBare(s: System, step: SysStep, id: JobId)
    requires Next(s, step).Some? && id in s.jobs && Bare(s.jobs[id])
    ensures id in Next(s, step).value.jobs && Bare(Next(s, step).value.jobs[id])
  {
    if step.Do? && step.id == id {
      StepKeepsBare(id, s.media, s.jobs[id], step.step);
    }
  }

  /** Over every run: a job that was not created by an upload never gets a transcript,
      a "done" manifest or a "done" row. */
  lemma {:induction false} PlainJobStaysBare(states: seq<System>, steps: seq<SysStep>, a: nat, n: nat, id: JobId)
    requires IsRun(states, steps) && a < n < |states|
    requires steps[a].Submit? && steps[a].id == id && !steps[a].upload
    ensures id in states[n].jobs && Bare(states[n].jobs[id])
  {
    RunAt(states, steps, n - 1);
    if a < n - 1 {
      PlainJobStaysBare(states, steps, a, n - 1, id);
      NextKeepsBare(states[n - 1], steps[n - 1], id);
    }
  }

  lemma {:induction false} JobWasSubmitted(states: seq<System>, steps: seq<SysStep>, n: nat, id: JobId)
    requires IsRun(states, steps) && n < |states| && id in states[n].jobs
    ensures exists a :: 0 <= a < n && steps[a].Submit? && steps[a].id == id
  {
    if n != 0 {
      RunAt(states, steps, n - 1);
      if id in states[n - 1].jobs {
        JobWasSubmitted(states, steps, n - 1, id);
      }
    }
  }

  /** So what is done, or has a transcript, was uploaded. */
  lemma DoneMeansUploaded(states: seq<System>, steps: seq<SysStep>, n: nat, id: JobId)
    requires IsRun(states, steps) && n < |states| && id in states[n].jobs
    requires var j := states[n].jobs[id]; RowIs(j, Status.Done) || ManifestDone(j.folder) || HasTranscript(j.folder)
    ensures exists a :: 0 <= a < n && steps[a].Submit? && steps[a].id == id && steps[a].upload
  {
    JobWasSubmitted(states, steps, n, id);
    var a :| 0 <= a < n && steps[a].Submit? && steps[a].id == id;
    if !steps[a].upload {
      PlainJobStaysBare(states, steps, a, n, id);
    }
  }

  /** The source path given at creation does not outlive the next boot: reconcile takes
      the manifest's, which is none. */
  lemma ReconcileClearsSourcePath(id: JobId, media: set<string>, j: Job)
    requires Bare(j) && j.phase == Down && j.row.Some? && j.folder.manifest.Some?
    ensures var booted := Apply(id, media, j, Step.Boot(Reconcile));
            booted.Some? && booted.value.row.Some? && booted.value.row.value.sourcePath == None
  {
  }

  /** A call of `run_job` on such a job fails it, whatever path its row names, whether
      that file exists, and whether it was cancelled. */
  lemma PlainRunFails(media: set<string>, s: Stores, around: Around, flagged: bool)
    requires s.row.Some? && BareFolder(s.folder)
    ensures RunStores(media, s, around, flagged) == s.(row := FailRow(s.row, around.error))
  {
    if s.folder.manifest.Some? {
      NothingIsComplete(s.folder.manifest.value, s.folder, media);
    }
  }
}
