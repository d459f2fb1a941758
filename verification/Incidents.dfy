/** Runs from the empty system in which something a user might rely on does not hold. */
module Incidents {
  import opened Wrappers
  import opened Stt
  import opened Jobs
  import opened Resume
  import opened Protocol
  import opened ProtocolInvariant
  import opened ProtocolTheorems
  import opened SoloRun
  import opened CancelEffect
  import opened SystemRun

  // ---------------------------------------------------------------- runs of one job

  const ID: JobId := "a"
  const MEDIA := {"f"}

  function OneJob(j: Job): System {
    System(map[ID := j], MEDIA, 1)
  }

  /** A run that has come to a system with the one job `j`. */
  ghost predicate RunTo(states: seq<System>, steps: seq<SysStep>, j: Job) {
    IsRun(states, steps) && states[|steps|] == OneJob(j)
  }

  lemma OneMore(states: seq<System>, steps: seq<SysStep>, step: SysStep, t: System)
    requires IsRun(states, steps) && Next(states[|steps|], step) == Some(t)
    ensures IsRun(states + [t], steps + [step])
  {
  }

  lemma Submitted(upload: bool) returns (states: seq<System>, steps: seq<SysStep>)
    ensures RunTo(states, steps, NewJob(upload, 0, None, None, 0)) && |steps| == 2
  {
    var j := NewJob(upload, 0, None, None, 0);
    OneMore([FRESH], [], MediaChanges(MEDIA), FRESH.(media := MEDIA));
    OneMore([FRESH] + [FRESH.(media := MEDIA)], [] + [MediaChanges(MEDIA)], Submit(ID, 0, upload, None, None),
            OneJob(j));
    states := [FRESH] + [FRESH.(media := MEDIA)] + [OneJob(j)];
    steps := [] + [MediaChanges(MEDIA)] + [Submit(ID, 0, upload, None, None)];
  }

  predicate Goes(j: Job, step: Step, k: Job) {
    Apply(ID, MEDIA, j, step) == Some(k) && !step.Boot? && (step.Select? ==> InLine(j))
  }

  lemma GoOn(states: seq<System>, steps: seq<SysStep>, j: Job, step: Step, k: Job)
    returns (more: seq<System>, all: seq<SysStep>)
    requires RunTo(states, steps, j) && Goes(j, step, k)
    ensures RunTo(more, all, k) && more == states + [OneJob(k)] && all == steps + [Do(ID, step)]
  {
    assert map[ID := j][ID := k] == map[ID := k];
    OneMore(states, steps, Do(ID, step), OneJob(k));
    more, all := states + [OneJob(k)], steps + [Do(ID, step)];
  }

  /** The steps of a run that is left alone are steps of the system. */
  lemma {:induction false} GoOnAlone(states: seq<System>, steps: seq<SysStep>, j: Job, p: Pid, inputs: nat -> Input,
                                     n: nat, k: Job)
    returns (more: seq<System>, all: seq<SysStep>)
    requires RunTo(states, steps, j) && j.phase == Up && Solo(MEDIA, j, p, inputs, n) == Some(k)
    ensures RunTo(more, all, k) && k.phase == Up && states <= more && steps <= all
    ensures forall i :: |steps| <= i < |all| ==> all[i].Do? && all[i].step.Run?
  {
    if n == 0 {
      more, all := states, steps;
    } else {
      var l := Solo(MEDIA, j, p, inputs, n - 1).value;
      more, all := GoOnAlone(states, steps, j, p, inputs, n - 1, l);
      if p in l.procs && l.procs[p].Runner? {
        more, all := GoOn(more, all, l, Run(p, inputs(n - 1)), k);
      }
    }
  }

  lemma InvAfter(states: seq<System>, steps: seq<SysStep>, j: Job)
    requires RunTo(states, steps, j)
    ensures Inv(j)
  {
    RunKeepsSystemInv(states, steps, |steps|);
    assert ID in states[|steps|].jobs;
  }

  // ---------------------------------------------------------------- an upload, up to its claim

  function MadeManifest(): Manifest {
    EmptyManifest(ID, "")
  }

  function DescribedManifest(): Manifest {
    MadeManifest().(sourcePath := Some("f"), sourceType := Some("local"), originalFilename := Some("f"))
  }

  function UploadJob(status: Status, named: bool, m: Manifest, procs: map<Pid, Proc>): Job {
    var row := NewRow(status, 0, Some("local"), None);
    Job(Some(if named then row.(originalFilename := Some("f")) else row),
        EMPTY_FOLDER.(manifest := Some(m), hasSource := true), procs, None, status == Status.Starting, Up)
  }

  function QueuedUpload(): Job {
    UploadJob(Status.Queued, true, DescribedManifest(), map[])
  }

  function ClaimedUpload(): Job {
    UploadJob(Status.Starting, true, DescribedManifest(), map[1 := Runner(Claimed, false)])
  }

  lemma UploadBegins() returns (states: seq<System>, steps: seq<SysStep>)
    ensures RunTo(states, steps,
                  UploadJob(Status.Uploading, false, MadeManifest(), map[0 := Creator(ReadingForSource)]))
  {
    var j0 := NewJob(true, 0, None, None, 0);
    var j1 := SetProc(j0.(folder := EMPTY_FOLDER.(manifest := Some(MadeManifest()))), 0, Creator(Streaming));
    var j2 := UploadJob(Status.Uploading, false, MadeManifest(), map[0 := Creator(ReadingForSource)]);
    states, steps := Submitted(true);
    states, steps := GoOn(states, steps, j0, Create(0, WriteEmpty("")), j1);
    assert j1.procs[0 := Creator(ReadingForSource)] == j2.procs;
    states, steps := GoOn(states, steps, j1, Create(0, StreamSource(true)), j2);
  }

  lemma UploadIsDescribed() returns (states: seq<System>, steps: seq<SysStep>)
    ensures RunTo(states, steps,
                  UploadJob(Status.Uploading, false, DescribedManifest(), map[0 := Creator(NamingRow("f"))]))
  {
    var j2 := UploadJob(Status.Uploading, false, MadeManifest(), map[0 := Creator(ReadingForSource)]);
    var j3 := UploadJob(Status.Uploading, false, MadeManifest(), map[0 := Creator(WritingSource(MadeManifest()))]);
    var j4 := UploadJob(Status.Uploading, false, DescribedManifest(), map[0 := Creator(NamingRow("f"))]);
    states, steps := UploadBegins();
    assert j2.procs[0 := Creator(WritingSource(MadeManifest()))] == j3.procs;
    states, steps := GoOn(states, steps, j2, Create(0, ReadForSource), j3);
    assert j3.procs[0 := Creator(NamingRow("f"))] == j4.procs;
    states, steps := GoOn(states, steps, j3, Create(0, WriteSource("f", "f")), j4);
  }

  lemma UploadIsQueued() returns (states: seq<System>, steps: seq<SysStep>)
    ensures RunTo(states, steps, QueuedUpload())
  {
    var j4 := UploadJob(Status.Uploading, false, DescribedManifest(), map[0 := Creator(NamingRow("f"))]);
    var j5 := UploadJob(Status.Uploading, true, DescribedManifest(), map[0 := Creator(Enqueuing)]);
    states, steps := UploadIsDescribed();
    assert j4.procs[0 := Creator(Enqueuing)] == j5.procs;
    states, steps := GoOn(states, steps, j4, Create(0, NameRow), j5);
    assert j5.procs - {0} == map[];
    states, steps := GoOn(states, steps, j5, Create(0, EnqueueUpload), QueuedUpload());
  }

  lemma UploadIsClaimed() returns (states: seq<System>, steps: seq<SysStep>)
    ensures RunTo(states, steps, ClaimedUpload())
  {
    var selected := UploadJob(Status.Queued, true, DescribedManifest(), map[1 := Puller]);
    states, steps := UploadIsQueued();
    assert QueuedUpload().procs[1 := Puller] == selected.procs;
    states, steps := GoOn(states, steps, QueuedUpload(), Select(1), selected);
    assert selected.procs[1 := Runner(Claimed, false)] == ClaimedUpload().procs;
    states, steps := GoOn(states, steps, selected, Claim(1), ClaimedUpload());
  }

  // ---------------------------------------------------------------- cancels that come to nothing

  function SoughtUpload(): Job {
    SetProc(ClaimedUpload(), 2, Canceller(FoundActive))
  }

  /** A cancel can come too early: the job is claimed, the cancel finds it active, and
      ends with the run going on unflagged, because it has not registered yet. */
  lemma CancelCanComeTooEarly() returns (states: seq<System>, steps: seq<SysStep>)
    ensures IsRun(states, steps) && |steps| >= 2
    ensures steps[|steps| - 2] == Do(ID, Cancel(2, CancelSelect))
            && steps[|steps| - 1] == Do(ID, Cancel(2, CancelActive))
    ensures states[|steps|] == OneJob(ClaimedUpload())
  {
    states, steps := UploadIsClaimed();
    states, steps := GoOn(states, steps, ClaimedUpload(), Cancel(2, CancelSelect), SoughtUpload());
    assert SoughtUpload().procs - {2} == ClaimedUpload().procs;
    states, steps := GoOn(states, steps, SoughtUpload(), Cancel(2, CancelActive), ClaimedUpload());
  }

  function Said(): Transcript {
    Transcript(ID, None, None, [])
  }

  function Healthily(): Input {
    Input("", TranscribeResult.Transcribed(Said()), "", EMPTY_FOLDER)
  }

  function RunningUpload(pc: RunPc, flag: bool): Job {
    ClaimedUpload().(running := Some(1), procs := map[1 := Runner(pc, flag)])
  }

  lemma UploadIsResumed() returns (states: seq<System>, steps: seq<SysStep>)
    ensures RunTo(states, steps, RunningUpload(Resuming(DescribedManifest(), Stage.Transcribed, true, false), false))
  {
    var pc := Resuming(DescribedManifest(), Stage.Transcribed, true, false);
    ResumePointCases(DescribedManifest(), ClaimedUpload().folder, MEDIA);
    states, steps := UploadIsClaimed();
    assert ClaimedUpload().procs[1 := Runner(Registered, false)] == RunningUpload(Registered, false).procs;
    states, steps := GoOn(states, steps, ClaimedUpload(), Run(1, Healthily()), RunningUpload(Registered, false));
    assert RunningUpload(Registered, false).procs[1 := Runner(pc, false)] == RunningUpload(pc, false).procs;
    states, steps := GoOn(states, steps, RunningUpload(Registered, false), Run(1, Healthily()),
                          RunningUpload(pc, false));
  }

  lemma UploadIsTranscribed() returns (states: seq<System>, steps: seq<SysStep>)
    ensures RunTo(states, steps, RunningUpload(Saving(Said()), false))
  {
    var pc := Resuming(DescribedManifest(), Stage.Transcribed, true, false);
    var next := AwaitingTranscript(DescribedManifest());
    states, steps := UploadIsResumed();
    assert RunningUpload(pc, false).procs[1 := Runner(next, false)] == RunningUpload(next, false).procs;
    states, steps := GoOn(states, steps, RunningUpload(pc, false), Run(1, Healthily()), RunningUpload(next, false));
    assert RunningUpload(next, false).procs[1 := Runner(Saving(Said()), false)]
        == RunningUpload(Saving(Said()), false).procs;
    states, steps := GoOn(states, steps, RunningUpload(next, false), Run(1, Healthily()),
                          RunningUpload(Saving(Said()), false));
  }

  lemma FlagIsRaisedLate() returns (states: seq<System>, steps: seq<SysStep>)
    ensures RunTo(states, steps, RunningUpload(Saving(Said()), true))
    ensures |steps| >= 1 && steps[|steps| - 1] == Do(ID, Cancel(2, CancelActive))
  {
    var j, k := RunningUpload(Saving(Said()), false), RunningUpload(Saving(Said()), true);
    states, steps := UploadIsTranscribed();
    states, steps := GoOn(states, steps, j, Cancel(2, CancelSelect), SetProc(j, 2, Canceller(FoundActive)));
    assert SetProc(j, 2, Canceller(FoundActive)).procs[1 := Runner(Saving(Said()), true)] - {2} == k.procs;
    states, steps := GoOn(states, steps, SetProc(j, 2, Canceller(FoundActive)), Cancel(2, CancelActive), k);
  }

  lemma FlaggedUploadFinishes(j: Job) returns (n: nat, k: Job)
    requires Inv(j) && j == RunningUpload(Saving(Said()), true)
    ensures Solo(MEDIA, j, 1, Always(Healthily()), n) == Some(k)
    ensures RowIs(k, Status.Done) && ManifestDone(k.folder)
  {
    k := LateFlagIsIgnored(MEDIA, j, 1, Healthily());
    n :| Solo(MEDIA, j, 1, Always(Healthily()), n) == Some(k);
  }

  /** And it can come too late: the run has registered and the cancel raises its flag,
      but the transcriber has returned, and the job ends done. */
  lemma CancelCanComeTooLate() returns (states: seq<System>, steps: seq<SysStep>, at: nat)
    ensures IsRun(states, steps) && at < |steps|
    ensures steps[at] == Do(ID, Cancel(2, CancelActive))
    ensures ID in states[at + 1].jobs && 1 in states[at + 1].jobs[ID].procs
    ensures states[at + 1].jobs[ID].procs[1] == Runner(Saving(Said()), true)
    ensures ID in states[|steps|].jobs
    ensures RowIs(states[|steps|].jobs[ID], Status.Done) && ManifestDone(states[|steps|].jobs[ID].folder)
  {
    var j := RunningUpload(Saving(Said()), true);
    states, steps := FlagIsRaisedLate();
    at := |steps| - 1;
    InvAfter(states, steps, j);
    var n, k := FlaggedUploadFinishes(j);
    var more, all := GoOnAlone(states, steps, j, 1, Always(Healthily()), n, k);
    states, steps := more, all;
  }

  // ---------------------------------------------------------------- verdicts that do not last

  function StalledUpload(): Job {
    ClaimedUpload().(row := FailRow(ClaimedUpload().row, "stalled"))
  }

  lemma UploadIsMarkedStale() returns (states: seq<System>, steps: seq<SysStep>)
    ensures RunTo(states, steps, StalledUpload())
    ensures |steps| >= 1 && steps[|steps| - 1] == Do(ID, Watch(3, WatchMark))
  {
    var seen, stale := SetProc(ClaimedUpload(), 3, Watcher(false)), SetProc(ClaimedUpload(), 3, Watcher(true));
    states, steps := UploadIsClaimed();
    states, steps := GoOn(states, steps, ClaimedUpload(), Watch(3, WatchSelect), seen);
    assert seen.procs[3 := Watcher(true)] == stale.procs;
    states, steps := GoOn(states, steps, seen, Watch(3, WatchCheck(true)), stale);
    assert stale.procs - {3} == StalledUpload().procs;
    states, steps := GoOn(states, steps, stale, Watch(3, WatchMark), StalledUpload());
  }

  lemma StalledUploadFinishes() returns (n: nat, k: Job)
    requires Inv(StalledUpload())
    ensures Solo(MEDIA, StalledUpload(), 1, Always(Healthily()), n) == Some(k)
    ensures RowIs(k, Status.Done) && ManifestDone(k.folder)
  {
    UninterruptedRunFinishes(MEDIA, StalledUpload(), 1, Always(Healthily()));
    n :| n <= 12 && Solo(MEDIA, StalledUpload(), 1, Always(Healthily()), n).Some?
         && Finished(MEDIA, Solo(MEDIA, StalledUpload(), 1, Always(Healthily()), n).value, 1);
    k := Solo(MEDIA, StalledUpload(), 1, Always(Healthily()), n).value;
  }

  /** The watchdog fails the job, the run goes on, and the job ends done. */
  lemma WatchdogFailedJobEndsDone() returns (states: seq<System>, steps: seq<SysStep>, at: nat)
    ensures IsRun(states, steps) && at < |steps|
    ensures steps[at] == Do(ID, Watch(3, WatchMark)) && states[at + 1] == OneJob(StalledUpload())
    ensures RowIs(StalledUpload(), Status.Failed)
    ensures ID in states[|steps|].jobs
    ensures RowIs(states[|steps|].jobs[ID], Status.Done) && ManifestDone(states[|steps|].jobs[ID].folder)
  {
    var j := StalledUpload();
    states, steps := UploadIsMarkedStale();
    at := |steps| - 1;
    InvAfter(states, steps, j);
    var n, k := StalledUploadFinishes();
    var more, all := GoOnAlone(states, steps, j, 1, Always(Healthily()), n, k);
    states, steps := more, all;
  }

  function PlainJob(status: Status, procs: map<Pid, Proc>): Job {
    Job(Some(NewRow(status, 0, None, None)), EMPTY_FOLDER.(manifest := Some(MadeManifest())), procs, None, false, Up)
  }

  lemma CancelIsHalfDone() returns (states: seq<System>, steps: seq<SysStep>)
    ensures RunTo(states, steps, PlainJob(Status.Cancelled, map[1 := Canceller(RemovingFolder)]))
  {
    var found, won := Canceller(FoundQueued), Canceller(WonQueued);
    states, steps := Submitted(false);
    assert NewJob(false, 0, None, None, 0).procs - {0} == map[];
    states, steps := GoOn(states, steps, NewJob(false, 0, None, None, 0), Create(0, WriteEmpty("")),
                          PlainJob(Status.Queued, map[]));
    assert PlainJob(Status.Queued, map[]).procs[1 := found] == map[1 := found];
    states, steps := GoOn(states, steps, PlainJob(Status.Queued, map[]), Cancel(1, CancelSelect),
                          PlainJob(Status.Queued, map[1 := found]));
    assert map[1 := found][1 := won] == map[1 := won];
    states, steps := GoOn(states, steps, PlainJob(Status.Queued, map[1 := found]), Cancel(1, CancelQueued),
                          PlainJob(Status.Cancelled, map[1 := won]));
    assert map[1 := won][1 := Canceller(RemovingFolder)] == map[1 := Canceller(RemovingFolder)];
    states, steps := GoOn(states, steps, PlainJob(Status.Cancelled, map[1 := won]), Cancel(1, CancelStep.CancelJob),
                          PlainJob(Status.Cancelled, map[1 := Canceller(RemovingFolder)]));
  }

  lemma OneJobCrashes(j: Job)
    ensures Next(OneJob(j), SysStep.Crash) == Some(OneJob(Crashed(j)))
  {
    assert OneJob(Crashed(j)).jobs == map id | id in OneJob(j).jobs :: Crashed(OneJob(j).jobs[id]);
  }

  lemma OneJobReconciles(j: Job, k: Job)
    requires Apply(ID, MEDIA, j, Step.Boot(Reconcile)) == Some(k)
    ensures Next(OneJob(j), Do(ID, Step.Boot(Reconcile))) == Some(OneJob(k))
  {
    assert map[ID := j][ID := k] == map[ID := k];
  }

  /** A crash before the folder is gone undoes a cancel: the next boot queues the job again. */
  lemma CrashQueuesCancelledJob() returns (states: seq<System>, steps: seq<SysStep>)
    ensures IsRun(states, steps) && |steps| >= 2
    ensures steps[|steps| - 2] == SysStep.Crash && steps[|steps| - 1] == Do(ID, Step.Boot(Reconcile))
    ensures states[|steps| - 2] == OneJob(PlainJob(Status.Cancelled, map[1 := Canceller(RemovingFolder)]))
    ensures ID in states[|steps|].jobs && RowIs(states[|steps|].jobs[ID], Status.Queued)
  {
    var j := PlainJob(Status.Cancelled, map[1 := Canceller(RemovingFolder)]);
    states, steps := CancelIsHalfDone();
    InvAfter(states, steps, j);
    CrashUndoesCancel(ID, MEDIA, j, 1);
    var k := Apply(ID, MEDIA, Crashed(j), Step.Boot(Reconcile)).value;
    OneJobCrashes(j);
    OneJobReconciles(Crashed(j), k);
    states, steps := TwoMore(states, steps, SysStep.Crash, OneJob(Crashed(j)), Do(ID, Step.Boot(Reconcile)), OneJob(k));
  }

  lemma TwoMore(states: seq<System>, steps: seq<SysStep>, first: SysStep, s: System, second: SysStep, t: System)
    returns (more: seq<System>, all: seq<SysStep>)
    requires IsRun(states, steps) && Next(states[|steps|], first) == Some(s) && Next(s, second) == Some(t)
    ensures IsRun(more, all) && more == states + [s] + [t] && all == steps + [first] + [second]
  {
    OneMore(states, steps, first, s);
    OneMore(states + [s], steps + [first], second, t);
    more, all := states + [s] + [t], steps + [first] + [second];
  }
}
