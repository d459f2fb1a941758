/** All jobs together: submissions, the first-in-first-out SELECT, crashes and boots;
    and the theorems over whole runs. */
module SystemRun {
  import opened Wrappers
  import opened Jobs
  import opened Protocol
  import opened ProtocolInvariant
  import opened ProtocolTheorems

  /** `media` are the paths outside that name non-empty files; `clock` orders creations. */
  datatype System = System(jobs: map<JobId, Job>, media: set<string>, clock: nat)

  datatype SysStep =
    | Submit(id: JobId, pid: Pid, upload: bool, sourceType: Option<string>, sourcePath: Option<string>)
    | Do(id: JobId, step: Step)
    | MediaChanges(media: set<string>)
    | Crash
    | Serve

  const FRESH := System(map[], {}, 0)

  predicate InLine(j: Job) {
    j.row.Some? && j.row.value.status == Status.Queued
  }

  /** The job a worker's SELECT returns: queued, and no queued job was created before it. */
  predicate FirstInLine(s: System, id: JobId) {
    && id in s.jobs && InLine(s.jobs[id])
    && forall k | k in s.jobs && InLine(s.jobs[k]) :: s.jobs[id].row.value.createdAt <= s.jobs[k].row.value.createdAt
  }

  /** The sweep begins once every folder has been reconciled. */
  predicate BootOrder(s: System, step: Step) {
    step.Boot? && !step.boot.Reconcile? ==> forall k | k in s.jobs :: s.jobs[k].phase != Down
  }

  function Next(s: System, step: SysStep): Option<System> {
    match step
    case Submit(id, p, upload, sourceType, sourcePath) =>
      if id in s.jobs || exists k | k in s.jobs :: s.jobs[k].phase != Up then None
      else Some(s.(jobs := s.jobs[id := NewJob(upload, s.clock, sourceType, sourcePath, p)], clock := s.clock + 1))
    case Do(id, st) =>
      if id !in s.jobs || (st.Select? && !FirstInLine(s, id)) || !BootOrder(s, st) then None
      else
        (match Apply(id, s.media, s.jobs[id], st)
         case None => None
         case Some(k) => Some(s.(jobs := s.jobs[id := k])))
    case MediaChanges(media) => Some(s.(media := media))
    case Crash => Some(s.(jobs := map id | id in s.jobs :: Crashed(s.jobs[id])))
    case Serve =>
      if exists k | k in s.jobs :: s.jobs[k].phase != Ready then None
      else Some(s.(jobs := map id | id in s.jobs :: s.jobs[id].(phase := Up)))
  }

  /** A run: states and the steps between them, from the fresh system. */
  ghost predicate IsRun(states: seq<System>, steps: seq<SysStep>) {
    && |states| == |steps| + 1
    && states[0] == FRESH
    && forall i :: 0 <= i < |steps| ==> Next(states[i], steps[i]) == Some(states[i + 1])
  }

  lemma RunAt(states: seq<System>, steps: seq<SysStep>, i: nat)
    requires IsRun(states, steps) && i < |steps|
    ensures Next(states[i], steps[i]) == Some(states[i + 1])
  {
  }

  ghost predicate SystemInv(s: System) {
    forall id | id in s.jobs :: Inv(s.jobs[id])
  }

  lemma NextKeepsInv(s: System, step: SysStep)
    requires SystemInv(s) && Next(s, step).Some?
    ensures SystemInv(Next(s, step).value)
  {
    var t := Next(s, step).value;
    forall id | id in t.jobs ensures Inv(t.jobs[id]) {
      match step
      case Submit(_, p, upload, sourceType, sourcePath) => NewJobInv(upload, s.clock, sourceType, sourcePath, p);
      case Do(k, st) =>
        if id == k {
          StepKeepsInv(id, s.media, s.jobs[id], st);
        }
      case Crash => CrashedInv(s.jobs[id]);
      case Serve => ReadyJobsAreNotActive(s.jobs[id]);
      case MediaChanges(_) =>
    }
  }

  lemma {:induction false} RunKeepsSystemInv(states: seq<System>, steps: seq<SysStep>, n: nat)
    requires IsRun(states, steps) && n < |states|
    ensures SystemInv(states[n])
  {
    if n != 0 {
      RunKeepsSystemInv(states, steps, n - 1);
      RunAt(states, steps, n - 1);
      NextKeepsInv(states[n - 1], steps[n - 1]);
    }
  }

  /** Over every run of workers, uploads, cancels, enqueues, watchdog ticks, crashes and
      reboots, in every state: a manifest that says "done" lies beside a valid transcript,
      and a row that says "done" has such a manifest. */
  lemma DoneIsAlwaysBacked(states: seq<System>, steps: seq<SysStep>, n: nat, id: JobId)
    requires IsRun(states, steps) && n < |states| && id in states[n].jobs
    ensures ManifestDone(states[n].jobs[id].folder) ==> HasTranscript(states[n].jobs[id].folder)
    ensures RowIs(states[n].jobs[id], Status.Done) ==> ManifestDone(states[n].jobs[id].folder)
  {
    RunKeepsSystemInv(states, steps, n);
  }

  /** In no state of any run do a run and a folder-removing cancel hold the same job,
      nor do two runs. */
  lemma JobHasOneOwner(states: seq<System>, steps: seq<SysStep>, n: nat, id: JobId, p: Pid, q: Pid)
    requires IsRun(states, steps) && n < |states| && id in states[n].jobs
    requires p in states[n].jobs[id].procs && states[n].jobs[id].procs[p].Runner?
    requires q in states[n].jobs[id].procs && q != p
    ensures !states[n].jobs[id].procs[q].Runner? && !OwnsRemoval(states[n].jobs[id].procs[q])
  {
    RunKeepsSystemInv(states, steps, n);
    var j := states[n].jobs[id];
    if OwnsRemoval(j.procs[q]) {
      CancelAndRunNeverShareJob(j, p, q);
    }
  }

  // ---------------------------------------------------------------- what lasts

  lemma NextKeepsDoneFolder(s: System, step: SysStep, id: JobId)
    requires SystemInv(s) && Next(s, step).Some? && id in s.jobs && ManifestDone(s.jobs[id].folder)
    ensures id in Next(s, step).value.jobs && Next(s, step).value.jobs[id].folder == s.jobs[id].folder
  {
    if step.Do? && step.id == id {
      DoneFolderIsNeverRemoved(id, s.media, s.jobs[id], step.step);
    }
  }

  /** A finished job is finished for good: from the state in which its manifest says
      "done" no step of the rest of the run, crashes and boots included, changes its folder. */
  lemma {:induction false} DoneFolderIsForever(states: seq<System>, steps: seq<SysStep>, a: nat, b: nat, id: JobId)
    requires IsRun(states, steps) && a <= b < |states|
    requires id in states[a].jobs && ManifestDone(states[a].jobs[id].folder)
    ensures id in states[b].jobs && states[b].jobs[id].folder == states[a].jobs[id].folder
  {
    if a < b {
      DoneFolderIsForever(states, steps, a, b - 1, id);
      RunKeepsSystemInv(states, steps, b - 1);
      RunAt(states, steps, b - 1);
      NextKeepsDoneFolder(states[b - 1], steps[b - 1], id);
    }
  }

  predicate Removes(s: System, step: SysStep, id: JobId) {
    step.Do? && step.id == id && id in s.jobs && RemovesFolder(s.jobs[id], step.step)
  }

  lemma NextKeepsTranscript(s: System, step: SysStep, id: JobId)
    requires SystemInv(s) && Next(s, step).Some? && id in s.jobs && HasTranscript(s.jobs[id].folder)
    requires !Removes(s, step, id)
    ensures id in Next(s, step).value.jobs
    ensures Next(s, step).value.jobs[id].folder.transcript == s.jobs[id].folder.transcript
  {
    if step.Do? && step.id == id {
      TranscriptIsNeverRewritten(id, s.media, s.jobs[id], step.step);
    }
  }

  lemma {:induction false} TranscriptLasts(states: seq<System>, steps: seq<SysStep>, a: nat, b: nat, id: JobId)
    requires IsRun(states, steps) && a <= b < |states|
    requires id in states[a].jobs && HasTranscript(states[a].jobs[id].folder)
    requires forall c :: a <= c < b ==> !Removes(states[c], steps[c], id)
    ensures id in states[b].jobs && states[b].jobs[id].folder.transcript == states[a].jobs[id].folder.transcript
  {
    if a < b {
      TranscriptLasts(states, steps, a, b - 1, id);
      RunKeepsSystemInv(states, steps, b - 1);
      RunAt(states, steps, b - 1);
      NextKeepsTranscript(states[b - 1], steps[b - 1], id);
    }
  }

  /** Over any run, crashes and boots included: a job that has a valid transcript is
      about to be transcribed again only if its folder was removed in between. */
  lemma TranscribedOnceUnlessRemoved(states: seq<System>, steps: seq<SysStep>, a: nat, b: nat, id: JobId, p: Pid)
    requires IsRun(states, steps) && a <= b < |states|
    requires id in states[a].jobs && HasTranscript(states[a].jobs[id].folder)
    requires id in states[b].jobs && p in states[b].jobs[id].procs && states[b].jobs[id].procs[p].Runner?
    requires states[b].jobs[id].procs[p].run.AwaitingTranscript? || states[b].jobs[id].procs[p].run.Saving?
    ensures exists c :: a <= c < b && Removes(states[c], steps[c], id)
  {
    RunKeepsSystemInv(states, steps, b);
    if forall c :: a <= c < b ==> !Removes(states[c], steps[c], id) {
      TranscriptLasts(states, steps, a, b, id);
      NoSecondTranscription(states[b].jobs[id], p);
    }
  }

  predicate Overwritten(s: System, step: SysStep, id: JobId) {
    step.Do? && step.id == id && id in s.jobs && Overwrites(s.jobs[id], step.step)
  }

  lemma NextKeepsFailed(s: System, step: SysStep, id: JobId)
    requires SystemInv(s) && Next(s, step).Some? && id in s.jobs && RowIs(s.jobs[id], Status.Failed)
    ensures id in Next(s, step).value.jobs
    ensures RowIs(Next(s, step).value.jobs[id], Status.Failed) <==> !Overwritten(s, step, id)
  {
    if step.Do? && step.id == id {
      FailedStaysIff(id, s.media, s.jobs[id], step.step);
    }
  }

  ghost predicate FailedAt(states: seq<System>, c: nat, id: JobId) {
    c < |states| && id in states[c].jobs && RowIs(states[c].jobs[id], Status.Failed)
  }

  ghost predicate OverwrittenAt(states: seq<System>, steps: seq<SysStep>, c: nat, id: JobId) {
    c < |steps| && c < |states| && Overwritten(states[c], steps[c], id)
  }

  lemma FailedStep(states: seq<System>, steps: seq<SysStep>, c: nat, id: JobId)
    requires IsRun(states, steps) && c < |steps| && FailedAt(states, c, id)
    ensures FailedAt(states, c + 1, id) <==> !OverwrittenAt(states, steps, c, id)
  {
    RunKeepsSystemInv(states, steps, c);
    RunAt(states, steps, c);
    NextKeepsFailed(states[c], steps[c], id);
  }

  ghost predicate FailedThrough(states: seq<System>, a: nat, b: nat, id: JobId) {
    forall c :: a <= c <= b ==> FailedAt(states, c, id)
  }

  ghost predicate LeftAlone(states: seq<System>, steps: seq<SysStep>, a: nat, b: nat, id: JobId) {
    forall c :: a <= c < b ==> !OverwrittenAt(states, steps, c, id)
  }

  lemma OneStepFurther(states: seq<System>, steps: seq<SysStep>, a: nat, b: nat, id: JobId)
    requires a <= b
    ensures FailedThrough(states, a, b + 1, id) <==> FailedThrough(states, a, b, id) && FailedAt(states, b + 1, id)
    ensures LeftAlone(states, steps, a, b + 1, id)
            <==> LeftAlone(states, steps, a, b, id) && !OverwrittenAt(states, steps, b, id)
  {
  }

  lemma StretchStep(states: seq<System>, steps: seq<SysStep>, a: nat, b: nat, id: JobId)
    requires IsRun(states, steps) && a <= b < |steps|
    requires FailedThrough(states, a, b, id) <==> LeftAlone(states, steps, a, b, id)
    ensures FailedThrough(states, a, b + 1, id) <==> LeftAlone(states, steps, a, b + 1, id)
  {
    OneStepFurther(states, steps, a, b, id);
    if FailedThrough(states, a, b, id) {
      assert FailedAt(states, b, id);
      FailedStep(states, steps, b, id);
    }
  }

  /** A failed row is failed through a stretch of any run, crashes and boots included,
      exactly when no step of the stretch overwrites it. */
  lemma {:induction false} FailedLastsIff(states: seq<System>, steps: seq<SysStep>, a: nat, b: nat, id: JobId)
    requires IsRun(states, steps) && a <= b < |states| && FailedAt(states, a, id)
    ensures FailedThrough(states, a, b, id) <==> LeftAlone(states, steps, a, b, id)
    decreases b
  {
    if a < b {
      FailedLastsIff(states, steps, a, b - 1, id);
      StretchStep(states, steps, a, b - 1, id);
    }
  }

  // ---------------------------------------------------------------- at most one claim a boot

  predicate Claims(s: System, step: SysStep, id: JobId) {
    step.Do? && step.id == id && id in s.jobs && ClaimsIn(s.jobs[id], step.step)
  }

  lemma ClaimedUntilCrash(s: System, step: SysStep, id: JobId)
    requires SystemInv(s) && Next(s, step).Some? && id in s.jobs && !step.Crash?
    ensures id in Next(s, step).value.jobs
    ensures s.jobs[id].claimed ==> Next(s, step).value.jobs[id].claimed
    ensures Claims(s, step, id) ==> !s.jobs[id].claimed && Next(s, step).value.jobs[id].claimed
  {
    if step.Do? && step.id == id {
      ClaimIsFirst(id, s.media, s.jobs[id], step.step);
    }
  }

  lemma {:induction false} StaysClaimed(states: seq<System>, steps: seq<SysStep>, a: nat, b: nat, id: JobId)
    requires IsRun(states, steps) && a < b <= |steps| && Claims(states[a], steps[a], id)
    requires forall c :: a < c < b ==> !steps[c].Crash?
    ensures id in states[b].jobs && states[b].jobs[id].claimed
  {
    RunKeepsSystemInv(states, steps, b - 1);
    if b - 1 > a {
      StaysClaimed(states, steps, a, b - 1, id);
    }
    RunAt(states, steps, b - 1);
    ClaimedUntilCrash(states[b - 1], steps[b - 1], id);
  }

  /** Between two boots each job is successfully claimed at most once: two claims of
      the same job have a crash between them. */
  lemma ClaimedOncePerBoot(states: seq<System>, steps: seq<SysStep>, a: nat, b: nat, id: JobId)
    requires IsRun(states, steps) && a < b < |steps|
    requires Claims(states[a], steps[a], id) && Claims(states[b], steps[b], id)
    ensures exists c :: a < c < b && steps[c].Crash?
  {
    RunKeepsSystemInv(states, steps, b);
    RunAt(states, steps, b);
    ClaimedUntilCrash(states[b], steps[b], id);
    if forall c :: a < c < b ==> !steps[c].Crash? {
      StaysClaimed(states, steps, a, b, id);
      assert false;
    }
  }
}
