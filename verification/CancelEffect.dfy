/** When a cancel of an active job takes effect: where a run still looks at its flag. */
module CancelEffect {
  import opened Wrappers
  import opened Jobs
  import opened Resume
  import opened Protocol
  import opened ProtocolInvariant
  import opened SoloRun

  /** A run looks at its flag in two places only: while it transcribes, and before it
      records a "done" that was all that was missing. */
  lemma OnlyTwoLooks(media: set<string>, j: Job, p: Pid, pc: RunPc, i: Input)
    requires !pc.Finishing? && !pc.AwaitingTranscript? && !pc.Finalizing?
    ensures RunMove(media, j, p, pc, true, i) == RunMove(media, j, p, pc, false, i)
  {
  }

  // ---------------------------------------------------------------- looks that lie ahead

  predicate BranchMeetsFlag(m: Manifest, at: Stage, skipTranscribed: bool, i: Input) {
    if skipTranscribed then at == Stage.Done else m.sourcePath.Some? && i.result.SawCancel?
  }

  predicate FilesLeadToFlag(media: set<string>, f: Folder, i: Input) {
    && f.manifest.Some?
    && var m := f.manifest.value;
       var point := InferResumePoint(m, f, media);
       point.Some? && ResumingMeetsFlag(media, f, m, point.value, IsStageComplete(Stage.Ingested, m, f, media),
                                        IsStageComplete(Stage.Transcribed, m, f, media), i)
  }

  predicate ResumingMeetsFlag(media: set<string>, f: Folder, m: Manifest, at: Stage, skipIngested: bool,
                              skipTranscribed: bool, i: Input)
  {
    if skipIngested then BranchMeetsFlag(m, at, skipTranscribed, i)
    else
      && SourceAccepted(m, media)
      && f.manifest.Some?
      && BranchMeetsFlag(Patched(f.manifest.value, IngestPatch(m)), at, skipTranscribed, i)
  }

  /** From where it stands, with these files, a run left alone will find a raised flag,
      or has just found it. Once the transcriber has returned, no look lies ahead. */
  predicate FlagAhead(media: set<string>, f: Folder, pc: RunPc, i: Input) {
    match pc
    case Claimed => FilesLeadToFlag(media, f, i)
    case Registered => FilesLeadToFlag(media, f, i)
    case Resuming(m, at, skipIngested, skipTranscribed) =>
      ResumingMeetsFlag(media, f, m, at, skipIngested, skipTranscribed, i)
    case Reading(_, patch, ThenReread(at, skipTranscribed)) =>
      f.manifest.Some? && BranchMeetsFlag(Patched(f.manifest.value, patch), at, skipTranscribed, i)
    case Writing(next, ThenReread(at, skipTranscribed)) => BranchMeetsFlag(next, at, skipTranscribed, i)
    case Projecting(_, ThenReread(at, skipTranscribed)) =>
      f.manifest.Some? && BranchMeetsFlag(f.manifest.value, at, skipTranscribed, i)
    case Rereading(at, skipTranscribed) =>
      f.manifest.Some? && BranchMeetsFlag(f.manifest.value, at, skipTranscribed, i)
    case AwaitingTranscript(m) => m.sourcePath.Some? && i.result.SawCancel?
    case Finalizing => true
    case CancelMarking => true
    case _ => false
  }

  /** What a flagged run carries to its end; `heard` says whether it will find its flag. */
  predicate OnTheWay(media: set<string>, i: Input, heard: bool, k: Job, pc: RunPc) {
    && k.row.Some?
    && ((heard && !pc.Finishing?) || pc.Removing? ==> Remains(i.rest, k.folder))
    && (if pc.Removing? || pc.Finishing? then RowIs(k, Status.Cancelled) == heard
        else FlagAhead(media, k.folder, pc, i) == heard && !RowIs(k, Status.Cancelled))
    && (pc.Finishing? && heard ==> k.folder == i.rest)
  }

  lemma OneStepOnTheWay(media: set<string>, p: Pid, i: Input, heard: bool, k: Job, pc: RunPc)
    requires OnTheWay(media, i, heard, k, pc) && !pc.Finishing? && i.rest.manifest == None
    ensures var to := RunMove(media, At(k, p, pc, true), p, pc, true, i);
            to.Some? && OnTheWay(media, i, heard, Moved(k, to.value), to.value.pc)
  {
  }

  /** A flagged run left alone ends with the job cancelled exactly when a look at the
      flag lies ahead of it; then the folder is what the delete leaves. The delete
      removes at least the manifest. */
  lemma FlaggedRunEnds(media: set<string>, j: Job, p: Pid, i: Input) returns (k: Job)
    requires p in j.procs && j.procs[p].Runner? && j.procs[p].flag
    requires j.row.Some? && !RowIs(j, Status.Cancelled)
    requires i.rest.manifest == None && Remains(i.rest, j.folder)
    ensures Ends(media, j, p, Always(i), k)
    ensures RowIs(k, Status.Cancelled) <==> FlagAhead(media, j.folder, j.procs[p].run, i)
    ensures RowIs(k, Status.Cancelled) ==> k.folder == i.rest
  {
    var heard := FlagAhead(media, j.folder, j.procs[p].run, i);
    var inv := (k: Job, pc: RunPc) => OnTheWay(media, i, heard, k, pc);
    forall k: Job, pc: RunPc | inv(k, pc) && !pc.Finishing?
      ensures var to := RunMove(media, At(k, p, pc, true), p, pc, true, i);
              to.Some? && inv(Moved(k, to.value), to.value.pc)
    {
      OneStepOnTheWay(media, p, i, heard, k, pc);
    }
    var l := SoloReachesEnd(media, j, p, i, inv);
    k := EndProc(l.(running := None), p);
  }

  // ---------------------------------------------------------------- too late

  /** The transcriber has returned: the transcript is about to be saved, or a stage
      update stands between it and the end. */
  predicate PastLooking(pc: RunPc) {
    || pc.Saving?
    || (pc.Reading? && !pc.andThen.ThenReread?)
    || (pc.Writing? && !pc.andThen.ThenReread?)
    || (pc.Projecting? && !pc.andThen.ThenReread?)
  }

  predicate BoundForDone(k: Job, pc: RunPc) {
    && k.row.Some?
    && match pc
       case Saving(_) => k.folder.manifest.Some?
       case Reading(stage, _, andThen) =>
         k.folder.manifest.Some? && !andThen.ThenReread? && (andThen.ThenFinish? ==> stage == Stage.Done)
       case Writing(next, andThen) =>
         !andThen.ThenReread? && (andThen.ThenFinish? ==> next.currentStage == Some(Stage.Done))
       case Projecting(next, andThen) =>
         && k.folder.manifest == Some(next) && !andThen.ThenReread?
         && (andThen.ThenFinish? ==> next.currentStage == Some(Stage.Done))
       case Finishing => RowIs(k, Status.Done) && ManifestDone(k.folder)
       case _ => false
  }

  lemma OneStepToDone(media: set<string>, p: Pid, flag: bool, i: Input, k: Job, pc: RunPc)
    requires BoundForDone(k, pc) && !pc.Finishing?
    ensures var to := RunMove(media, At(k, p, pc, flag), p, pc, flag, i);
            to.Some? && BoundForDone(Moved(k, to.value), to.value.pc)
  {
  }

  /** A flag raised after the transcriber has returned is never seen: left alone, the
      run ends with row and manifest "done". */
  lemma LateFlagIsIgnored(media: set<string>, j: Job, p: Pid, i: Input) returns (k: Job)
    requires Inv(j) && j.row.Some?
    requires p in j.procs && j.procs[p].Runner? && PastLooking(j.procs[p].run)
    ensures !FlagAhead(media, j.folder, j.procs[p].run, i)
    ensures Ends(media, j, p, Always(i), k)
    ensures RowIs(k, Status.Done) && ManifestDone(k.folder)
  {
    assert ProcOk(j, j.procs[p]);
    var flag, inv := j.procs[p].flag, (k: Job, pc: RunPc) => BoundForDone(k, pc);
    forall k: Job, pc: RunPc | inv(k, pc) && !pc.Finishing?
      ensures var to := RunMove(media, At(k, p, pc, flag), p, pc, flag, i);
              to.Some? && inv(Moved(k, to.value), to.value.pc)
    {
      OneStepToDone(media, p, flag, i, k, pc);
    }
    var l := SoloReachesEnd(media, j, p, i, inv);
    k := EndProc(l.(running := None), p);
  }

  // ---------------------------------------------------------------- without a flag

  predicate Unheard(k: Job, p: Pid) {
    && !RowIs(k, Status.Cancelled)
    && (p in k.procs && k.procs[p].Runner? ==>
          !k.procs[p].flag && !k.procs[p].run.CancelMarking? && !k.procs[p].run.Removing?)
  }

  lemma UnheardStep(media: set<string>, k: Job, p: Pid, i: Input)
    requires Unheard(k, p) && p in k.procs && k.procs[p].Runner? && ApplyRun(media, k, p, i).Some?
    ensures Unheard(ApplyRun(media, k, p, i).value, p)
  {
  }

  lemma {:induction false} UnflaggedIsNeverCancelled(media: set<string>, j: Job, p: Pid, inputs: nat -> Input,
                                                     n: nat, k: Job)
    requires Unheard(j, p) && Solo(media, j, p, inputs, n) == Some(k)
    ensures Unheard(k, p)
  {
    if n != 0 {
      var l := Solo(media, j, p, inputs, n - 1).value;
      UnflaggedIsNeverCancelled(media, j, p, inputs, n - 1, l);
      if p in l.procs && l.procs[p].Runner? {
        UnheardStep(media, l, p, inputs(n - 1));
      }
    }
  }

  // ---------------------------------------------------------------- the cancel itself

  /** Some run of the job, left alone, ends with the job cancelled. */
  ghost predicate EndsCancelled(media: set<string>, j: Job, i: Input) {
    exists q, k :: q in j.procs && j.procs[q].Runner? && Ends(media, j, q, Always(i), k) && RowIs(k, Status.Cancelled)
  }

  /** The job's run has registered and will still look at its flag. */
  ghost predicate CanHearCancel(media: set<string>, j: Job, i: Input) {
    && j.running.Some? && j.running.value in j.procs && j.procs[j.running.value].Runner?
    && FlagAhead(media, j.folder, j.procs[j.running.value].run, i)
  }

  function Cancelled(j: Job, c: Pid): Job
    requires j.running.Some? ==> j.running.value in j.procs && j.procs[j.running.value].Runner?
  {
    if j.running.Some? then
      EndProc(SetProc(j, j.running.value, j.procs[j.running.value].(flag := true)), c)
    else EndProc(j, c)
  }

  /** The exact condition under which a cancel of an active job takes effect: a run has
      registered, and a look at the flag still lies ahead of it. */
  lemma CancelTakesEffectIff(id: JobId, media: set<string>, j: Job, c: Pid, i: Input)
    requires Inv(j) && j.phase == Up && c in j.procs && j.procs[c] == Canceller(FoundActive)
    requires j.row.Some? && !RowIs(j, Status.Cancelled)
    requires i.rest.manifest == None && Remains(i.rest, j.folder)
    ensures var after := Apply(id, media, j, Cancel(c, CancelActive));
            && after.Some?
            && (EndsCancelled(media, after.value, i) <==> CanHearCancel(media, j, i))
  {
    var after := Apply(id, media, j, Cancel(c, CancelActive)).value;
    assert after == Cancelled(j, c);
    if j.running.Some? {
      var q := j.running.value;
      var k := FlaggedRunEnds(media, after, q, i);
      forall r, l | r in after.procs && after.procs[r].Runner? && Ends(media, after, r, Always(i), l)
        ensures r == q && l == k
      {
        assert r in j.procs && j.procs[r].Runner?;
        EndsOneWay(media, after, q, Always(i), k, l);
      }
    } else {
      forall q, k | q in after.procs && after.procs[q].Runner? && Ends(media, after, q, Always(i), k)
        ensures !RowIs(k, Status.Cancelled)
      {
        assert after.procs[q] == j.procs[q] == Runner(Claimed, false);
        var n: nat :| Solo(media, after, q, Always(i), n) == Some(k);
        UnflaggedIsNeverCancelled(media, after, q, Always(i), n, k);
      }
    }
  }
}
