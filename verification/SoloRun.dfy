/** A run that nothing interrupts. */
module SoloRun {
  import opened Wrappers
  import opened Stt
  import opened Jobs
  import opened Resume
  import opened Protocol
  import opened ProtocolInvariant

  /** The first `n` steps of run `p`, with nothing in between; `inputs(k)` is what the
      k-th step takes from outside. A run that has ended stays as it is. */
  function Solo(media: set<string>, j: Job, p: Pid, inputs: nat -> Input, n: nat): Option<Job> {
    if n == 0 then Some(j)
    else
      match Solo(media, j, p, inputs, n - 1)
      case None => None
      case Some(k) =>
        if p in k.procs && k.procs[p].Runner? then ApplyRun(media, k, p, inputs(n - 1)) else Some(k)
  }

  function At(j: Job, p: Pid, pc: RunPc, flag: bool): Job {
    SetProc(j, p, Runner(pc, flag))
  }

  /** The manifest names a non-empty source and asks for neither diarization nor summaries. */
  predicate Completable(media: set<string>, m: Manifest) {
    && m.sourcePath.Some? && m.sourcePath.value != "" && m.sourcePath.value in media
    && !m.diarizationEnabled && m.summaryKinds == []
  }

  /** A claimed job that can go through; no cancel has reached the run. */
  predicate Healthy(media: set<string>, j: Job, p: Pid) {
    && j.phase == Up && j.row.Some?
    && p in j.procs && j.procs[p] == Runner(Claimed, false)
    && j.folder.manifest.Some?
    && Completable(media, j.folder.manifest.value)
  }

  ghost predicate AdapterAnswers(inputs: nat -> Input) {
    forall n: nat :: inputs(n).result.Transcribed?
  }

  /** After `n` steps alone the run stands at `pc` with the job as in `k`. */
  predicate Reaches(media: set<string>, j: Job, p: Pid, inputs: nat -> Input, n: nat, k: Job, pc: RunPc, flag: bool) {
    Solo(media, j, p, inputs, n) == Some(At(k, p, pc, flag))
  }

  function Moved(k: Job, to: Move): Job {
    k.(row := to.row, folder := to.folder, running := to.running)
  }

  lemma SoloStep(media: set<string>, j: Job, p: Pid, inputs: nat -> Input, n: nat, k: Job, pc: RunPc, flag: bool,
                 to: Move)
    requires Reaches(media, j, p, inputs, n, k, pc, flag) && !pc.Finishing?
    requires RunMove(media, At(k, p, pc, flag), p, pc, flag, inputs(n)) == Some(to)
    ensures Reaches(media, j, p, inputs, n + 1, Moved(k, to), to.pc, flag)
  {
    assert k.procs[p := Runner(pc, flag)][p := Runner(to.pc, flag)] == k.procs[p := Runner(to.pc, flag)];
  }

  lemma SoloRead(media: set<string>, j: Job, p: Pid, inputs: nat -> Input, n: nat, k: Job,
                 stage: Stage, patch: ManifestPatch, andThen: After, flag: bool)
    requires Reaches(media, j, p, inputs, n, k, Reading(stage, patch, andThen), flag) && k.folder.manifest.Some?
    ensures Reaches(media, j, p, inputs, n + 1, k,
                    Writing(Advance(k.folder.manifest.value, stage, patch, inputs(n).now), andThen), flag)
  {
    var next := Advance(k.folder.manifest.value, stage, patch, inputs(n).now);
    SoloStep(media, j, p, inputs, n, k, Reading(stage, patch, andThen), flag,
             Move(k.row, k.folder, k.running, Writing(next, andThen)));
  }

  lemma SoloWrite(media: set<string>, j: Job, p: Pid, inputs: nat -> Input, n: nat, k: Job, next: Manifest,
                  andThen: After, flag: bool)
    requires Reaches(media, j, p, inputs, n, k, Writing(next, andThen), flag)
    ensures Reaches(media, j, p, inputs, n + 1, k.(folder := k.folder.(manifest := Some(next))),
                    Projecting(next, andThen), flag)
  {
    SoloStep(media, j, p, inputs, n, k, Writing(next, andThen), flag,
             Move(k.row, k.folder.(manifest := Some(next)), k.running, Projecting(next, andThen)));
  }

  lemma SoloProject(media: set<string>, j: Job, p: Pid, inputs: nat -> Input, n: nat, k: Job, next: Manifest,
                    andThen: After, flag: bool)
    requires Reaches(media, j, p, inputs, n, k, Projecting(next, andThen), flag)
    ensures Reaches(media, j, p, inputs, n + 1, k.(row := ProjectRow(k.row, next)), Continue(andThen), flag)
  {
    SoloStep(media, j, p, inputs, n, k, Projecting(next, andThen), flag,
             Move(ProjectRow(k.row, next), k.folder, k.running, Continue(andThen)));
  }

  /** A job after a completed stage update. */
  function Updated(k: Job, next: Manifest): Job {
    k.(folder := k.folder.(manifest := Some(next)), row := ProjectRow(k.row, next))
  }

  /** The three steps of a stage update. */
  lemma SoloUpdate(media: set<string>, j: Job, p: Pid, inputs: nat -> Input, n: nat, k: Job,
                   stage: Stage, patch: ManifestPatch, andThen: After, flag: bool) returns (next: Manifest)
    requires Reaches(media, j, p, inputs, n, k, Reading(stage, patch, andThen), flag) && k.folder.manifest.Some?
    ensures next == Advance(k.folder.manifest.value, stage, patch, inputs(n).now)
    ensures Reaches(media, j, p, inputs, n + 3, Updated(k, next), Continue(andThen), flag)
  {
    next := Advance(k.folder.manifest.value, stage, patch, inputs(n).now);
    SoloRead(media, j, p, inputs, n, k, stage, patch, andThen, flag);
    SoloWrite(media, j, p, inputs, n + 1, k, next, andThen, flag);
    SoloProject(media, j, p, inputs, n + 2, k.(folder := k.folder.(manifest := Some(next))), next, andThen, flag);
  }

  lemma SoloSave(media: set<string>, j: Job, p: Pid, inputs: nat -> Input, n: nat, k: Job, m: Manifest, flag: bool)
    requires Reaches(media, j, p, inputs, n, k, AwaitingTranscript(m), flag) && m.sourcePath.Some?
    requires inputs(n).result.Transcribed?
    ensures var t := inputs(n).result.transcript;
            Reaches(media, j, p, inputs, n + 2, k.(folder := k.folder.(transcript := Parsed(t))),
                    Reading(Stage.Transcribed, TranscribedPatch(t), ThenDone), flag)
  {
    var t := inputs(n).result.transcript;
    SoloStep(media, j, p, inputs, n, k, AwaitingTranscript(m), flag, Move(k.row, k.folder, k.running, Saving(t)));
    SoloStep(media, j, p, inputs, n + 1, k, Saving(t), flag,
             Move(k.row, k.folder.(transcript := Parsed(t)), k.running,
                  Reading(Stage.Transcribed, TranscribedPatch(t), ThenDone)));
  }

  /** Registering, reading the manifest and walking the stages. */
  lemma SoloStart(media: set<string>, j: Job, p: Pid, inputs: nat -> Input)
    requires Inv(j) && Healthy(media, j, p)
    ensures Reaches(media, j, p, inputs, 3, j.(running := Some(p)),
                    if HasTranscript(j.folder) then Finalizing else AwaitingTranscript(j.folder.manifest.value), false)
  {
    var m := j.folder.manifest.value;
    var k := j.(running := Some(p));
    assert ProcOk(j, j.procs[p]);
    assert j.procs[p := Runner(Claimed, false)] == j.procs;
    assert At(j, p, Claimed, false) == j;
    ResumePointCases(m, j.folder, media);
    var at := InferResumePoint(m, j.folder, media).value;
    SoloStep(media, j, p, inputs, 0, j, Claimed, false, Move(j.row, j.folder, Some(p), Registered));
    SoloStep(media, j, p, inputs, 1, k, Registered, false,
             Move(j.row, j.folder, Some(p), Resuming(m, at, true, HasTranscript(j.folder))));
    SoloStep(media, j, p, inputs, 2, k, Resuming(m, at, true, HasTranscript(j.folder)), false,
             Move(j.row, j.folder, Some(p), Branch(m, at, HasTranscript(j.folder))));
  }

  /** The run is over; row and manifest say "done" and nothing is left to resume. */
  predicate Finished(media: set<string>, k: Job, p: Pid) {
    && p !in k.procs && k.running == None
    && RowIs(k, Status.Done) && ManifestDone(k.folder)
    && InferResumePoint(k.folder.manifest.value, k.folder, media) == None
  }

  lemma SoloEnd(media: set<string>, j: Job, p: Pid, inputs: nat -> Input, n: nat, k: Job, m: Manifest, now: string)
    requires Completable(media, m) && k.row.Some? && HasTranscript(k.folder)
    requires Reaches(media, j, p, inputs, n, Updated(k, Advance(m, Stage.Done, NO_PATCH, now)), Finishing, false)
    ensures Solo(media, j, p, inputs, n + 1).Some?
    ensures Finished(media, Solo(media, j, p, inputs, n + 1).value, p)
    ensures Solo(media, j, p, inputs, n + 1).value.folder.transcript == k.folder.transcript
  {
    var done := Advance(m, Stage.Done, NO_PATCH, now);
    ResumePointCases(done, k.folder.(manifest := Some(done)), media);
  }

  lemma SoloFromTranscript(media: set<string>, j: Job, p: Pid, inputs: nat -> Input)
    requires Inv(j) && Healthy(media, j, p) && HasTranscript(j.folder)
    ensures Solo(media, j, p, inputs, 8).Some?
    ensures var k := Solo(media, j, p, inputs, 8).value;
            Finished(media, k, p) && k.folder.transcript == j.folder.transcript
  {
    var k := j.(running := Some(p));
    SoloStart(media, j, p, inputs);
    SoloStep(media, j, p, inputs, 3, k, Finalizing, false,
             Move(k.row, k.folder, k.running, Reading(Stage.Done, NO_PATCH, ThenFinish)));
    var next := SoloUpdate(media, j, p, inputs, 4, k, Stage.Done, NO_PATCH, ThenFinish, false);
    SoloEnd(media, j, p, inputs, 7, k, k.folder.manifest.value, inputs(4).now);
  }

  /** Both stage updates after the transcript is saved. */
  lemma SoloRecord(media: set<string>, j: Job, p: Pid, inputs: nat -> Input, n: nat, k: Job, t: Transcript)
    returns (first: Manifest)
    requires Reaches(media, j, p, inputs, n, k, Reading(Stage.Transcribed, TranscribedPatch(t), ThenDone), false)
    requires k.folder.manifest.Some?
    ensures first == Advance(k.folder.manifest.value, Stage.Transcribed, TranscribedPatch(t), inputs(n).now)
    ensures Reaches(media, j, p, inputs, n + 6,
                    Updated(Updated(k, first), Advance(first, Stage.Done, NO_PATCH, inputs(n + 3).now)),
                    Finishing, false)
  {
    first := SoloUpdate(media, j, p, inputs, n, k, Stage.Transcribed, TranscribedPatch(t), ThenDone, false);
    var second := SoloUpdate(media, j, p, inputs, n + 3, Updated(k, first), Stage.Done, NO_PATCH, ThenFinish, false);
  }

  lemma SoloTranscript(media: set<string>, j: Job, p: Pid, inputs: nat -> Input) returns (n: nat)
    requires Inv(j) && Healthy(media, j, p) && !HasTranscript(j.folder) && AdapterAnswers(inputs)
    ensures n == 5
    ensures var t := inputs(3).result.transcript;
            Reaches(media, j, p, inputs, n, j.(running := Some(p), folder := j.folder.(transcript := Parsed(t))),
                    Reading(Stage.Transcribed, TranscribedPatch(t), ThenDone), false)
  {
    SoloStart(media, j, p, inputs);
    n := 3;
    SoloSave(media, j, p, inputs, n, j.(running := Some(p)), j.folder.manifest.value, false);
    n := n + 2;
  }

  lemma SoloFromSource(media: set<string>, j: Job, p: Pid, inputs: nat -> Input) returns (n: nat)
    requires Inv(j) && Healthy(media, j, p) && !HasTranscript(j.folder) && AdapterAnswers(inputs)
    ensures n == 12 && Solo(media, j, p, inputs, n).Some?
    ensures var k := Solo(media, j, p, inputs, n).value;
            Finished(media, k, p) && k.folder.transcript == Parsed(inputs(3).result.transcript)
  {
    var t := inputs(3).result.transcript;
    n := SoloTranscript(media, j, p, inputs);
    var saved := j.(running := Some(p), folder := j.folder.(transcript := Parsed(t)));
    var first := SoloRecord(media, j, p, inputs, n, saved, t);
    SoloEnd(media, j, p, inputs, n + 6, Updated(saved, first), first, inputs(n + 3).now);
    n := n + 7;
  }

  /** One uninterrupted run, from any state the protocol can be in with the job claimed,
      finishes the job within twelve steps: row and manifest "done", nothing to resume.
      It calls the adapter exactly when there was no valid transcript, and keeps the
      transcript there was. */
  lemma UninterruptedRunFinishes(media: set<string>, j: Job, p: Pid, inputs: nat -> Input)
    requires Inv(j) && Healthy(media, j, p)
    requires HasTranscript(j.folder) || AdapterAnswers(inputs)
    ensures exists n: nat :: n <= 12 && Solo(media, j, p, inputs, n).Some?
                             && Finished(media, Solo(media, j, p, inputs, n).value, p)
                             && Solo(media, j, p, inputs, n).value.folder.transcript
                                == if HasTranscript(j.folder) then j.folder.transcript
                                   else Parsed(inputs(3).result.transcript)
  {
    if HasTranscript(j.folder) {
      SoloFromTranscript(media, j, p, inputs);
    } else {
      var n := SoloFromSource(media, j, p, inputs);
    }
  }

  /** Run `p`, left alone, ends with the job as in `k`. */
  ghost predicate Ends(media: set<string>, j: Job, p: Pid, inputs: nat -> Input, k: Job) {
    p !in k.procs && exists n: nat :: Solo(media, j, p, inputs, n) == Some(k)
  }

  lemma {:induction false} SoloStays(media: set<string>, j: Job, p: Pid, inputs: nat -> Input, n: nat, m: nat, k: Job)
    requires n <= m && Solo(media, j, p, inputs, n) == Some(k) && p !in k.procs
    ensures Solo(media, j, p, inputs, m) == Some(k)
  {
    if n < m {
      SoloStays(media, j, p, inputs, n, m - 1, k);
    }
  }

  /** There is one way for a run to end. */
  lemma EndsOneWay(media: set<string>, j: Job, p: Pid, inputs: nat -> Input, k: Job, l: Job)
    requires Ends(media, j, p, inputs, k) && Ends(media, j, p, inputs, l)
    ensures k == l
  {
    var n: nat :| Solo(media, j, p, inputs, n) == Some(k);
    var m: nat :| Solo(media, j, p, inputs, m) == Some(l);
    if n <= m {
      SoloStays(media, j, p, inputs, n, m, k);
    } else {
      SoloStays(media, j, p, inputs, m, n, l);
    }
  }

  /** The same surroundings at every step. */
  function Always(input: Input): nat -> Input {
    (n: nat) => input
  }

  /** How far a run still is from its end. */
  function Rank(pc: RunPc): nat {
    match pc
    case Claimed => 20
    case Registered => 19
    case Resuming(_, _, _, _) => 18
    case Reading(_, _, andThen) => UpdateRank(andThen) + 2
    case Writing(_, andThen) => UpdateRank(andThen) + 1
    case Projecting(_, andThen) => UpdateRank(andThen)
    case Rereading(_, _) => 14
    case AwaitingTranscript(_) => 13
    case Saving(_) => 12
    case Finalizing => 9
    case CancelMarking => 2
    case Removing => 1
    case Raising => 1
    case Finishing => 0
  }

  function UpdateRank(andThen: After): nat {
    match andThen
    case ThenReread(_, _) => 15
    case ThenDone => 9
    case ThenFinish => 6
  }

  /** Every step of a run brings it nearer to its end. */
  lemma StepDescends(media: set<string>, j: Job, p: Pid, pc: RunPc, flag: bool, i: Input)
    requires !pc.Finishing? && RunMove(media, j, p, pc, flag, i).Some?
    ensures Rank(RunMove(media, j, p, pc, flag, i).value.pc) < Rank(pc)
  {
  }

  /** Every step of run `p` can be taken and keeps `inv`. */
  ghost predicate Carries(media: set<string>, p: Pid, flag: bool, input: Input, inv: (Job, RunPc) -> bool) {
    forall k: Job, pc: RunPc | inv(k, pc) && !pc.Finishing? ::
      var to := RunMove(media, At(k, p, pc, flag), p, pc, flag, input);
      to.Some? && inv(Moved(k, to.value), to.value.pc)
  }

  lemma {:induction false} SoloGoesOn(media: set<string>, j: Job, p: Pid, flag: bool, input: Input,
                                      inv: (Job, RunPc) -> bool, n: nat, k: Job, pc: RunPc)
    returns (m: nat, l: Job)
    requires Carries(media, p, flag, input, inv)
    requires Reaches(media, j, p, Always(input), n, k, pc, flag) && inv(k, pc)
    ensures Reaches(media, j, p, Always(input), m, l, Finishing, flag) && inv(l, Finishing)
    decreases Rank(pc)
  {
    if pc.Finishing? {
      m, l := n, k;
    } else {
      var to := RunMove(media, At(k, p, pc, flag), p, pc, flag, input).value;
      SoloStep(media, j, p, Always(input), n, k, pc, flag, to);
      StepDescends(media, At(k, p, pc, flag), p, pc, flag, input);
      m, l := SoloGoesOn(media, j, p, flag, input, inv, n + 1, Moved(k, to), to.pc);
    }
  }

  lemma SoloCloses(media: set<string>, j: Job, p: Pid, inputs: nat -> Input, n: nat, k: Job, flag: bool)
    requires Reaches(media, j, p, inputs, n, k, Finishing, flag)
    ensures Ends(media, j, p, inputs, EndProc(k.(running := None), p))
  {
    var end := EndProc(k.(running := None), p);
    assert At(k, p, Finishing, flag).procs - {p} == end.procs;
    assert Solo(media, j, p, inputs, n + 1) == Some(end);
  }

  /** Induction over a run left alone: what every step can carry on holds at its end,
      and it does end. */
  lemma SoloReachesEnd(media: set<string>, j: Job, p: Pid, input: Input, inv: (Job, RunPc) -> bool) returns (k: Job)
    requires p in j.procs && j.procs[p].Runner? && inv(j, j.procs[p].run)
    requires Carries(media, p, j.procs[p].flag, input, inv)
    ensures inv(k, Finishing)
    ensures Ends(media, j, p, Always(input), EndProc(k.(running := None), p))
  {
    var flag, pc := j.procs[p].flag, j.procs[p].run;
    assert At(j, p, pc, flag) == j;
    var n: nat;
    n, k := SoloGoesOn(media, j, p, flag, input, inv, 0, j, pc);
    SoloCloses(media, j, p, Always(input), n, k, flag);
  }

  /** However a healthy run ends, it ends with the job done. */
  lemma EndedRunIsDone(media: set<string>, j: Job, p: Pid, inputs: nat -> Input, k: Job)
    requires Inv(j) && Healthy(media, j, p) && (HasTranscript(j.folder) || AdapterAnswers(inputs))
    requires Ends(media, j, p, inputs, k)
    ensures Finished(media, k, p)
    ensures k.folder.transcript == if HasTranscript(j.folder) then j.folder.transcript
                                   else Parsed(inputs(3).result.transcript)
  {
    UninterruptedRunFinishes(media, j, p, inputs);
    var n: nat :| n <= 12 && Solo(media, j, p, inputs, n).Some?
                  && Finished(media, Solo(media, j, p, inputs, n).value, p)
                  && Solo(media, j, p, inputs, n).value.folder.transcript
                     == if HasTranscript(j.folder) then j.folder.transcript
                        else Parsed(inputs(3).result.transcript);
    EndsOneWay(media, j, p, inputs, k, Solo(media, j, p, inputs, n).value);
  }
}
