/** What the invariant means for one job: ownership, terminal rows, transcripts, cancels. */
module ProtocolTheorems {
  import opened Wrappers
  import opened Jobs
  import opened Protocol
  import opened ProtocolInvariant

  predicate OwnsRemoval(proc: Proc) {
    proc == Canceller(WonQueued) || proc == Canceller(RemovingFolder)
  }

  /** A queued row is won by one side only: no run and no cancel that will remove the
      folder exist at once, whatever has interleaved to get here. */
  lemma CancelAndRunNeverShareJob(j: Job, p: Pid, q: Pid)
    requires Inv(j) && p in j.procs && q in j.procs
    ensures !(j.procs[p].Runner? && OwnsRemoval(j.procs[q]))
  {
    assert ProcOk(j, j.procs[p]);
    assert ProcOk(j, j.procs[q]);
  }

  /** A claim succeeds only on a job no worker has claimed since the last boot, and
      from then on the job counts as claimed until the next crash. */
  lemma ClaimIsFirst(id: JobId, media: set<string>, j: Job, s: Step)
    requires Inv(j) && Apply(id, media, j, s).Some?
    ensures ClaimsIn(j, s) ==> !j.claimed && Apply(id, media, j, s).value.claimed
    ensures j.claimed ==> Apply(id, media, j, s).value.claimed
  {
  }

  /** The steps that `enqueue`, `pull_next` and `cancel` take on the row. */
  predicate QueueStep(s: Step) {
    || s.Enqueue? || s.Select? || s.Claim? || s.Cancel?
    || (s.Create? && s.create.EnqueueUpload?)
  }

  /** None of them moves a row out of done, failed or cancelled. */
  lemma QueueStepsKeepTerminalRows(id: JobId, media: set<string>, j: Job, s: Step)
    requires Inv(j) && QueueStep(s) && Apply(id, media, j, s).Some?
    requires j.row.Some? && Terminal(j.row.value.status)
    ensures Apply(id, media, j, s).value.row == j.row
  {
    if s.Cancel? && s.pid in j.procs {
      assert ProcOk(j, j.procs[s.pid]);
    }
  }

  /** The two steps that delete a folder. */
  predicate RemovesFolder(j: Job, s: Step) {
    || (s.Cancel? && s.cancel.CancelRemove?)
    || (s.Run? && s.pid in j.procs && j.procs[s.pid].Runner? && j.procs[s.pid].run.Removing?)
  }

  /** Once a valid transcript exists no run is about to call the adapter or to save. */
  lemma NoSecondTranscription(j: Job, p: Pid)
    requires Inv(j) && HasTranscript(j.folder) && p in j.procs && j.procs[p].Runner?
    ensures !j.procs[p].run.AwaitingTranscript? && !j.procs[p].run.Saving?
  {
    assert ProcOk(j, j.procs[p]);
  }

  lemma RunKeepsTranscript(media: set<string>, j: Job, p: Pid, i: Input)
    requires Inv(j) && HasTranscript(j.folder) && p in j.procs && j.procs[p].Runner?
    requires ApplyRun(media, j, p, i).Some? && !j.procs[p].run.Removing?
    ensures ApplyRun(media, j, p, i).value.folder.transcript == j.folder.transcript
  {
    NoSecondTranscription(j, p);
  }

  /** And it is never rewritten: any step but a cancel's folder removal leaves it as it is. */
  lemma TranscriptIsNeverRewritten(id: JobId, media: set<string>, j: Job, s: Step)
    requires Inv(j) && HasTranscript(j.folder) && Apply(id, media, j, s).Some?
    requires !RemovesFolder(j, s)
    ensures Apply(id, media, j, s).value.folder.transcript == j.folder.transcript
  {
    if s.Run? {
      RunKeepsTranscript(media, j, s.pid, s.input);
    }
  }

  /** A finished job's folder is safe: while its manifest says "done", no step deletes it. */
  lemma DoneFolderIsNeverRemoved(id: JobId, media: set<string>, j: Job, s: Step)
    requires Inv(j) && ManifestDone(j.folder) && Apply(id, media, j, s).Some?
    ensures Apply(id, media, j, s).value.folder == j.folder
  {
    forall p | p in j.procs ensures ProcOk(j, j.procs[p]) {
    }
  }

  /** A cancel of an active job raises a flag exactly when a run has registered; without
      one it changes nothing but itself. What becomes of a raised flag is another matter. */
  lemma FlagNeedsRegisteredRun(id: JobId, media: set<string>, j: Job, p: Pid)
    requires Inv(j) && p in j.procs && j.procs[p] == Canceller(FoundActive) && j.phase == Up
    ensures var after := Apply(id, media, j, Cancel(p, CancelActive));
            && after.Some?
            && (j.running.Some? <==>
                  exists q :: q in after.value.procs && after.value.procs[q].Runner? && after.value.procs[q].flag)
            && (j.running.None? ==> after.value == EndProc(j, p))
  {
    var after := Apply(id, media, j, Cancel(p, CancelActive)).value;
    if j.running.Some? {
      assert after.procs[j.running.value].flag;
      assert p in j.procs && p !in EndProc(j, p).procs;
    } else {
      forall q | q in after.procs && after.procs[q].Runner? ensures !after.procs[q].flag {
        assert q in j.procs && after.procs[q] == j.procs[q];
      }
    }
  }

  /** The steps that replace a "failed" in the row: the last statement of a run's stage
      update, a run's own cancel, the compensation of a creation, and boot's reconcile
      where there is a manifest. */
  predicate Overwrites(j: Job, s: Step) {
    || (s.Run? && s.pid in j.procs && j.procs[s.pid].Runner?
        && (j.procs[s.pid].run.Projecting? || j.procs[s.pid].run.CancelMarking?))
    || (s.Create? && s.create.Compensate?)
    || (s == Step.Boot(Reconcile) && j.folder.manifest.Some?)
  }

  /** A "failed", the watchdog's or any other, stays exactly as long as none of them is taken. */
  lemma FailedStaysIff(id: JobId, media: set<string>, j: Job, s: Step)
    requires Inv(j) && RowIs(j, Status.Failed) && Apply(id, media, j, s).Some?
    ensures RowIs(Apply(id, media, j, s).value, Status.Failed) <==> !Overwrites(j, s)
  {
    if s.Boot? {
      EndSurvivesOnlyWithoutManifest(j.row.value, j.folder.manifest);
    } else if s.Run? && j.procs[s.pid].run.Projecting? {
      RunOverwritesFailed(id, media, j, s.pid, s.input);
    } else if s.Cancel? && s.pid in j.procs {
      assert ProcOk(j, j.procs[s.pid]);
    }
  }

  lemma RunOverwritesFailed(id: JobId, media: set<string>, j: Job, p: Pid, i: Input)
    requires Inv(j) && j.row.Some? && p in j.procs && j.procs[p].Runner? && j.procs[p].run.Projecting?
    requires Apply(id, media, j, Run(p, i)).Some?
    ensures !RowIs(Apply(id, media, j, Run(p, i)).value, Status.Failed)
  {
    assert ProcOk(j, j.procs[p]);
  }

  /** A crash undoes a cancel that has not yet removed the folder: reconcile goes by the
      manifest, and a job that was queued is queued again. */
  lemma CrashUndoesCancel(id: JobId, media: set<string>, j: Job, p: Pid)
    requires Inv(j) && p in j.procs && j.procs[p] == Canceller(RemovingFolder)
    requires j.row.Some? && j.folder.manifest.Some?
    ensures RowIs(j, Status.Cancelled)
    ensures var booted := Apply(id, media, Crashed(j), Boot(Reconcile));
            && booted.Some? && !RowIs(booted.value, Status.Cancelled)
            && (j.folder.manifest.value.currentStage == None ==> RowIs(booted.value, Status.Queued))
  {
    assert ProcOk(j, j.procs[p]);
    EndSurvivesOnlyWithoutManifest(j.row.value, j.folder.manifest);
  }

  /** After boot no job is left active, and a second pass would find nothing to do. */
  lemma ReadyJobsAreNotActive(j: Job)
    requires Inv(j) && j.phase == Ready
    ensures !RowActive(j) && Inv(j.(phase := Up))
    ensures ApplyBoot({}, j.(phase := Reconciled), SweepRead("")) == Some(j)
  {
  }
}
