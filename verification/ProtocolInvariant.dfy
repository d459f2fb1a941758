/** What every step of a job keeps. */
module ProtocolInvariant {
  import opened Wrappers
  import opened Stt
  import opened Jobs
  import opened Resume
  import opened Protocol

  predicate ManifestDone(f: Folder) {
    f.manifest.Some? && f.manifest.value.currentStage == Some(Stage.Done)
  }

  predicate HasTranscript(f: Folder) {
    f.transcript.Parsed?
  }

  predicate RowIs(j: Job, s: Status) {
    j.row.Some? && j.row.value.status == s
  }

  predicate RowPreActive(j: Job) {
    j.row.Some? && PreActive(j.row.value.status)
  }

  predicate RowActive(j: Job) {
    j.row.Some? && Active(j.row.value.status)
  }

  /** The backing of "done": a done manifest lies beside a valid transcript, a done row
      has such a manifest, and a row still to be claimed has none. */
  predicate Backed(j: Job) {
    && (ManifestDone(j.folder) ==> HasTranscript(j.folder))
    && (RowIs(j, Status.Done) ==> ManifestDone(j.folder))
    && (RowPreActive(j) ==> !ManifestDone(j.folder))
  }

  /** A stage a run writes, given what lies in the folder. */
  predicate StageReady(f: Folder, stage: Stage) {
    && stage != Stage.Failed
    && (stage == Stage.Done ==> HasTranscript(f))
  }

  predicate AfterOk(f: Folder, andThen: After) {
    match andThen
    case ThenReread(_, skipTranscribed) => skipTranscribed == HasTranscript(f)
    case ThenDone => HasTranscript(f)
    case ThenFinish => true
  }

  /** A run before its manifest says "done". */
  predicate Unfinished(f: Folder) {
    f.manifest.Some? && !ManifestDone(f)
  }

  predicate RunOk(f: Folder, pc: RunPc) {
    match pc
    case Claimed => !ManifestDone(f)
    case Registered => !ManifestDone(f)
    case Resuming(_, _, _, skipTranscribed) => Unfinished(f) && skipTranscribed == HasTranscript(f)
    case Reading(stage, _, andThen) =>
      && Unfinished(f) && StageReady(f, stage) && AfterOk(f, andThen)
      && (stage == Stage.Done <==> andThen.ThenFinish?)
    case Writing(next, andThen) =>
      && Unfinished(f) && AfterOk(f, andThen)
      && next.currentStage.Some? && StageReady(f, next.currentStage.value)
      && (next.currentStage == Some(Stage.Done) <==> andThen.ThenFinish?)
    case Projecting(next, andThen) =>
      && f.manifest == Some(next) && AfterOk(f, andThen)
      && next.currentStage.Some? && StageReady(f, next.currentStage.value)
      && (next.currentStage == Some(Stage.Done) <==> andThen.ThenFinish?)
    case Rereading(_, skipTranscribed) => Unfinished(f) && skipTranscribed == HasTranscript(f)
    case AwaitingTranscript(_) => Unfinished(f) && !HasTranscript(f)
    case Saving(_) => Unfinished(f) && !HasTranscript(f)
    case Finalizing => Unfinished(f) && HasTranscript(f)
    case CancelMarking => !ManifestDone(f)
    case Removing => !ManifestDone(f)
    case Raising => true
    case Finishing => true
  }

  predicate CreateOk(j: Job, pc: CreatePc) {
    match pc
    case MakingManifest(upload) =>
      && j.folder.manifest.None?
      && (upload ==> RowIs(j, Status.Uploading))
    case Compensating => true
    case WritingSource(m) => RowIs(j, Status.Uploading) && m.currentStage != Some(Stage.Done)
    case _ => RowIs(j, Status.Uploading)
  }

  /** What holds while a process is where it is, in terms of the job's stores. */
  predicate ProcOk(j: Job, proc: Proc) {
    match proc
    case Creator(pc) => CreateOk(j, pc)
    case Puller => true
    case Runner(pc, _) => j.claimed && RunOk(j.folder, pc)
    case Canceller(WonQueued) => !j.claimed && !ManifestDone(j.folder) && (j.row.None? || RowIs(j, Status.Cancelled))
    case Canceller(RemovingFolder) =>
      !j.claimed && !ManifestDone(j.folder) && (j.row.None? || RowIs(j, Status.Cancelled))
    case Canceller(_) => true
    case Watcher(_) => j.claimed
  }

  ghost predicate OneRunner(j: Job) {
    forall p, q | p in j.procs && q in j.procs && j.procs[p].Runner? && j.procs[q].Runner? :: p == q
  }

  ghost predicate OneCreator(j: Job) {
    forall p, q | p in j.procs && q in j.procs && j.procs[p].Creator? && j.procs[q].Creator? :: p == q
  }

  ghost predicate ProcsOk(j: Job) {
    && OneRunner(j)
    && OneCreator(j)
    && forall p | p in j.procs :: ProcOk(j, j.procs[p])
  }

  /** The registry names exactly the run that has registered; a run that has not
      cannot have been told to cancel. */
  ghost predicate RegistryOk(j: Job) {
    && (j.running.Some? ==>
          j.running.value in j.procs && j.procs[j.running.value].Runner? && !j.procs[j.running.value].run.Claimed?)
    && (forall p | p in j.procs && j.procs[p].Runner? ::
          if j.procs[p].run.Claimed? then !j.procs[p].flag else j.running == Some(p))
  }

  predicate PhaseOk(j: Job) {
    match j.phase
    case Reconciled => RowActive(j) ==> !ManifestDone(j.folder)
    case SweepWriting(next) =>
      RowActive(j) && !ManifestDone(j.folder) && next.currentStage == Some(Stage.Done) && HasTranscript(j.folder)
    case SweepProjecting(next) =>
      RowActive(j) && next.currentStage == Some(Stage.Done) && j.folder.manifest == Some(next)
    case SweepFailing(_) => RowActive(j) && !ManifestDone(j.folder)
    case SweepSpoiling(_) => RowIs(j, Status.Failed) && !ManifestDone(j.folder)
    case Ready => !RowActive(j)
    case _ => true
  }

  /** In service a row is active only if a worker claimed it since the last boot, and
      a claimed row can no longer be claimed. */
  predicate ClaimOk(j: Job) {
    && (RowActive(j) && j.phase == Up ==> j.claimed)
    && (RowPreActive(j) ==> !j.claimed)
  }

  ghost predicate Inv(j: Job) {
    && Backed(j)
    && ClaimOk(j)
    && PhaseOk(j)
    && ProcsOk(j)
    && RegistryOk(j)
    && (j.phase != Up ==> j.procs == map[] && j.running == None && !j.claimed)
  }

  // ---------------------------------------------------------------- preservation

  lemma NewJobInv(upload: bool, createdAt: nat, sourceType: Option<string>, sourcePath: Option<string>, p: Pid)
    ensures Inv(NewJob(upload, createdAt, sourceType, sourcePath, p))
  {
  }

  lemma CrashedInv(j: Job)
    requires Inv(j)
    ensures Inv(Crashed(j))
  {
  }

  lemma FirstWriteKeepsInv(id: JobId, j: Job, p: Pid, s: CreateStep)
    requires Inv(j) && j.phase == Up && p in j.procs && j.procs[p].Creator?
    requires ApplyCreate(id, j, p, s).Some? && s.WriteEmpty?
    ensures Inv(ApplyCreate(id, j, p, s).value)
  {
  }

  lemma UploadWritesKeepInv(id: JobId, j: Job, p: Pid, s: CreateStep)
    requires Inv(j) && j.phase == Up && p in j.procs && j.procs[p].Creator?
    requires ApplyCreate(id, j, p, s).Some? && (s.StreamSource? || s.WriteSource?)
    ensures Inv(ApplyCreate(id, j, p, s).value)
  {
  }

  lemma CreateRowsKeepInv(id: JobId, j: Job, p: Pid, s: CreateStep)
    requires Inv(j) && j.phase == Up && p in j.procs && j.procs[p].Creator?
    requires ApplyCreate(id, j, p, s).Some? && (s.NameRow? || s.EnqueueUpload? || s.Compensate?)
    ensures Inv(ApplyCreate(id, j, p, s).value)
  {
  }

  lemma CreateKeepsInv(id: JobId, j: Job, p: Pid, s: CreateStep)
    requires Inv(j) && j.phase == Up && p in j.procs && j.procs[p].Creator?
    requires ApplyCreate(id, j, p, s).Some?
    ensures Inv(ApplyCreate(id, j, p, s).value)
  {
    if s.WriteEmpty? {
      FirstWriteKeepsInv(id, j, p, s);
    } else if s.StreamSource? || s.WriteSource? {
      UploadWritesKeepInv(id, j, p, s);
    } else if s.NameRow? || s.EnqueueUpload? || s.Compensate? {
      CreateRowsKeepInv(id, j, p, s);
    }
  }

  /** A run has its job to itself: whatever it does to the stores, as long as it does
      not conjure up a manifest, the other processes are where they may be. */
  lemma OthersKept(j: Job, k: Job, p: Pid)
    requires Inv(j) && p in j.procs && j.procs[p].Runner?
    requires k.claimed == j.claimed
    requires j.folder.manifest.None? ==> k.folder.manifest.None?
    ensures forall q | q in j.procs && q != p :: ProcOk(k, j.procs[q])
  {
    forall q | q in j.procs && q != p ensures ProcOk(k, j.procs[q]) {
      assert ProcOk(j, j.procs[q]);
      assert ProcOk(j, j.procs[p]);
    }
  }

  predicate Starts(pc: RunPc) {
    pc.Claimed? || pc.Registered? || pc.Resuming?
  }

  predicate Reads(pc: RunPc) {
    pc.Reading? || pc.Rereading? || pc.AwaitingTranscript? || pc.Finalizing?
  }

  predicate Files(pc: RunPc) {
    pc.Writing? || pc.Saving? || pc.Removing?
  }

  /** The run's own part of a step from `j` to `k`. */
  predicate RunnerStep(j: Job, k: Job, p: Pid)
    requires p in j.procs && j.procs[p].Runner?
  {
    && p in k.procs && k.procs[p].Runner?
    && k.phase == Up && k.procs == j.procs[p := k.procs[p]]
    && k.claimed == j.claimed
    && (j.folder.manifest.None? ==> k.folder.manifest.None?)
    && Backed(k) && !RowPreActive(k) && RunOk(k.folder, k.procs[p].run)
    && !k.procs[p].run.Claimed?
    && k.running == if j.procs[p].run.Claimed? then Some(p) else j.running
  }

  predicate RunnerMay(j: Job, p: Pid) {
    && j.phase == Up && p in j.procs && j.procs[p].Runner?
    && Backed(j) && ClaimOk(j) && ProcOk(j, j.procs[p])
  }

  lemma RunnerMoves(j: Job, k: Job, p: Pid)
    requires Inv(j) && p in j.procs && j.procs[p].Runner? && RunnerStep(j, k, p)
    ensures Inv(k)
  {
    assert ProcOk(j, j.procs[p]);
    OthersKept(j, k, p);
  }

  lemma StartStep(media: set<string>, j: Job, p: Pid, i: Input)
    requires RunnerMay(j, p) && Starts(j.procs[p].run) && ApplyRun(media, j, p, i).Some?
    ensures RunnerStep(j, ApplyRun(media, j, p, i).value, p)
  {
    if j.folder.manifest.Some? {
      ResumePointCases(j.folder.manifest.value, j.folder, media);
    }
  }

  lemma ReadStep(media: set<string>, j: Job, p: Pid, i: Input)
    requires RunnerMay(j, p) && Reads(j.procs[p].run) && ApplyRun(media, j, p, i).Some?
    ensures RunnerStep(j, ApplyRun(media, j, p, i).value, p)
  {
  }

  lemma FileStep(media: set<string>, j: Job, p: Pid, i: Input)
    requires RunnerMay(j, p) && Files(j.procs[p].run) && ApplyRun(media, j, p, i).Some?
    ensures RunnerStep(j, ApplyRun(media, j, p, i).value, p)
  {
  }

  lemma ProjectStep(media: set<string>, j: Job, p: Pid, i: Input)
    requires RunnerMay(j, p) && j.procs[p].run.Projecting? && ApplyRun(media, j, p, i).Some?
    ensures RunnerStep(j, ApplyRun(media, j, p, i).value, p)
  {
    RunStagesNeverQueue(j.procs[p].run.next, j.procs[p].run.next.currentStage.value);
  }

  lemma MarkStep(media: set<string>, j: Job, p: Pid, i: Input)
    requires RunnerMay(j, p) && (j.procs[p].run.Raising? || j.procs[p].run.CancelMarking?)
    requires ApplyRun(media, j, p, i).Some?
    ensures RunnerStep(j, ApplyRun(media, j, p, i).value, p)
  {
  }

  lemma RunKeepsInv(media: set<string>, j: Job, p: Pid, i: Input)
    requires Inv(j) && j.phase == Up && p in j.procs && j.procs[p].Runner?
    requires ApplyRun(media, j, p, i).Some?
    ensures Inv(ApplyRun(media, j, p, i).value)
  {
    assert ProcOk(j, j.procs[p]);
    var k := ApplyRun(media, j, p, i).value;
    var pc := j.procs[p].run;
    if pc.Finishing? {
      assert forall q | q in k.procs :: q in j.procs && k.procs[q] == j.procs[q];
    } else {
      if Starts(pc) {
        StartStep(media, j, p, i);
      } else if Reads(pc) {
        ReadStep(media, j, p, i);
      } else if Files(pc) {
        FileStep(media, j, p, i);
      } else if pc.Projecting? {
        ProjectStep(media, j, p, i);
      } else {
        MarkStep(media, j, p, i);
      }
      RunnerMoves(j, k, p);
    }
  }

  lemma CancelQueuedKeepsInv(j: Job, p: Pid)
    requires Inv(j) && j.phase == Up && ApplyCancel(j, p, CancelQueued).Some?
    ensures Inv(ApplyCancel(j, p, CancelQueued).value)
  {
    assert ProcOk(j, j.procs[p]);
  }

  lemma CancelJobKeepsInv(j: Job, p: Pid)
    requires Inv(j) && j.phase == Up && ApplyCancel(j, p, CancelStep.CancelJob).Some?
    ensures Inv(ApplyCancel(j, p, CancelStep.CancelJob).value)
  {
    assert ProcOk(j, j.procs[p]);
  }

  lemma CancelRemoveKeepsInv(j: Job, p: Pid, rest: Folder)
    requires Inv(j) && j.phase == Up && ApplyCancel(j, p, CancelRemove(rest)).Some?
    ensures Inv(ApplyCancel(j, p, CancelRemove(rest)).value)
  {
    assert ProcOk(j, j.procs[p]);
  }

  lemma CancelActiveKeepsInv(j: Job, p: Pid)
    requires Inv(j) && j.phase == Up && ApplyCancel(j, p, CancelActive).Some?
    ensures Inv(ApplyCancel(j, p, CancelActive).value)
  {
  }

  lemma CancelKeepsInv(j: Job, p: Pid, s: CancelStep)
    requires Inv(j) && j.phase == Up && ApplyCancel(j, p, s).Some?
    ensures Inv(ApplyCancel(j, p, s).value)
  {
    match s
    case CancelSelect =>
    case CancelQueued => CancelQueuedKeepsInv(j, p);
    case CancelJob => CancelJobKeepsInv(j, p);
    case CancelRemove(rest) => CancelRemoveKeepsInv(j, p, rest);
    case CancelActive => CancelActiveKeepsInv(j, p);
  }

  lemma WatchKeepsInv(j: Job, p: Pid, s: WatchStep)
    requires Inv(j) && j.phase == Up && ApplyWatch(j, p, s).Some?
    ensures Inv(ApplyWatch(j, p, s).value)
  {
  }

  lemma BootKeepsInv(media: set<string>, j: Job, s: BootStep)
    requires Inv(j) && ApplyBoot(media, j, s).Some?
    ensures Inv(ApplyBoot(media, j, s).value)
  {
    if j.phase == Reconciled && j.folder.manifest.Some? {
      NothingLeftIffOutputsComplete(j.folder.manifest.value, j.folder, media);
    }
  }

  lemma EnqueueKeepsInv(id: JobId, media: set<string>, j: Job)
    requires Inv(j) && Apply(id, media, j, Enqueue).Some?
    ensures Inv(Apply(id, media, j, Enqueue).value)
  {
  }

  lemma SelectKeepsInv(id: JobId, media: set<string>, j: Job, p: Pid)
    requires Inv(j) && Apply(id, media, j, Select(p)).Some?
    ensures Inv(Apply(id, media, j, Select(p)).value)
  {
  }

  lemma ClaimWonKeepsInv(id: JobId, media: set<string>, j: Job, p: Pid)
    requires Inv(j) && Apply(id, media, j, Claim(p)).Some? && ClaimsIn(j, Claim(p))
    ensures Inv(Apply(id, media, j, Claim(p)).value)
  {
  }

  lemma ClaimKeepsInv(id: JobId, media: set<string>, j: Job, p: Pid)
    requires Inv(j) && Apply(id, media, j, Claim(p)).Some?
    ensures Inv(Apply(id, media, j, Claim(p)).value)
  {
    if ClaimsIn(j, Claim(p)) {
      ClaimWonKeepsInv(id, media, j, p);
    }
  }

  lemma RaiseKeepsInv(id: JobId, media: set<string>, j: Job, p: Pid)
    requires Inv(j) && Apply(id, media, j, Step.Raise(p)).Some?
    ensures Inv(Apply(id, media, j, Step.Raise(p)).value)
  {
  }

  lemma AbortKeepsInv(id: JobId, media: set<string>, j: Job, p: Pid)
    requires Inv(j) && Apply(id, media, j, Abort(p)).Some?
    ensures Inv(Apply(id, media, j, Abort(p)).value)
  {
  }

  /** Every step of every process, and of boot, keeps the invariant. */
  lemma StepKeepsInv(id: JobId, media: set<string>, j: Job, s: Step)
    requires Inv(j) && Apply(id, media, j, s).Some?
    ensures Inv(Apply(id, media, j, s).value)
  {
    match s
    case Boot(b) => BootKeepsInv(media, j, b);
    case Create(p, c) => CreateKeepsInv(id, j, p, c);
    case Run(p, i) => RunKeepsInv(media, j, p, i);
    case Cancel(p, c) => CancelKeepsInv(j, p, c);
    case Watch(p, w) => WatchKeepsInv(j, p, w);
    case Raise(p) => RaiseKeepsInv(id, media, j, p);
    case Abort(p) => AbortKeepsInv(id, media, j, p);
    case Enqueue => EnqueueKeepsInv(id, media, j);
    case Select(p) => SelectKeepsInv(id, media, j, p);
    case Claim(p) => ClaimKeepsInv(id, media, j, p);
  }
}
