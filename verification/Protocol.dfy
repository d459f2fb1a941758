/** One job and everything that can happen to it, one atomic step at a time: any
    number of workers, cancels, enqueues and watchdog ticks, a crash between any two
    steps, and the steps of the next boot. */
module Protocol {
  import opened Wrappers
  import opened Stt
  import opened Jobs
  import opened Resume

  type Pid = nat

  // ---------------------------------------------------------------- processes

  /** Creating a job: the row is in, the folder and manifest are not; an upload goes
      on to stream the file, describe it in the manifest and enqueue the job. */
  datatype CreatePc =
    | MakingManifest(upload: bool) | Compensating
    | Streaming | ReadingForSource | WritingSource(m: Manifest) | NamingRow(filename: string) | Enqueuing

  /** Where a run goes on after a stage update. */
  datatype After = ThenReread(at: Stage, skipTranscribed: bool) | ThenDone | ThenFinish

  datatype RunPc =
    | Claimed
    | Registered
    | Resuming(m: Manifest, at: Stage, skipIngested: bool, skipTranscribed: bool)
    | Reading(stage: Stage, patch: ManifestPatch, andThen: After)
    | Writing(next: Manifest, andThen: After)
    | Projecting(next: Manifest, andThen: After)
    | Rereading(at: Stage, skipTranscribed: bool)
    | AwaitingTranscript(m: Manifest)
    | Saving(transcript: Transcript)
    | Finalizing
    | Raising | CancelMarking | Removing | Finishing

  datatype CancelPc = FoundQueued | WonQueued | RemovingFolder | FoundActive

  datatype Proc =
    | Creator(create: CreatePc)
    | Puller
    | Runner(run: RunPc, flag: bool)
    | Canceller(cancel: CancelPc)
    | Watcher(checked: bool)

  /** Up is normal service. A crash goes Down; boot reconciles, sweeps, and is Ready. */
  datatype Phase =
    | Up | Down | Reconciled
    | SweepWriting(next: Manifest) | SweepProjecting(next: Manifest)
    | SweepFailing(found: Option<Manifest>) | SweepSpoiling(left: Manifest)
    | Ready

  /** `running` is the job's entry in the registry of cancel flags. `claimed` records
      that a worker's claim succeeded since the last boot; no step looks at it. */
  datatype Job =
    Job(row: Option<Row>, folder: Folder, procs: map<Pid, Proc>, running: Option<Pid>, claimed: bool, phase: Phase)

  // ---------------------------------------------------------------- steps

  datatype CreateStep =
    | WriteEmpty(now: string) | CreateFails | Compensate
    | StreamSource(nonEmpty: bool) | ReadForSource | WriteSource(path: string, filename: string)
    | NameRow | EnqueueUpload

  datatype TranscribeResult = Transcribed(transcript: Transcript) | SawCancel | Broke

  /** What a run's next step takes from outside. */
  datatype Input = Input(now: string, result: TranscribeResult, error: string, rest: Folder)

  datatype CancelStep = CancelSelect | CancelQueued | CancelJob | CancelRemove(rest: Folder) | CancelActive

  datatype WatchStep = WatchSelect | WatchCheck(stale: bool) | WatchMark

  datatype BootStep = Reconcile | SweepRead(now: string) | SweepWrite | SweepProject | SweepFail | SweepSpoil

  datatype Step =
    | Create(pid: Pid, create: CreateStep)
    | Enqueue
    | Select(pid: Pid)
    | Claim(pid: Pid)
    | Run(pid: Pid, input: Input)
    | Raise(pid: Pid)
    | Cancel(pid: Pid, cancel: CancelStep)
    | Watch(pid: Pid, watch: WatchStep)
    | Abort(pid: Pid)
    | Boot(boot: BootStep)

  function SetProc(j: Job, p: Pid, proc: Proc): Job {
    j.(procs := j.procs[p := proc])
  }

  function EndProc(j: Job, p: Pid): Job {
    j.(procs := j.procs - {p})
  }

  function ApplyCreate(id: JobId, j: Job, p: Pid, s: CreateStep): Option<Job>
    requires p in j.procs && j.procs[p].Creator?
  {
    match (j.procs[p].create, s)
    case (MakingManifest(upload), WriteEmpty(now)) =>
      var written := j.(folder := j.folder.(manifest := Some(EmptyManifest(id, now))));
      Some(if upload then SetProc(written, p, Creator(Streaming)) else EndProc(written, p))
    case (MakingManifest(_), CreateFails) => Some(SetProc(j, p, Creator(Compensating)))
    case (Compensating, Compensate) => Some(EndProc(j.(row := None), p))
    case (Streaming, StreamSource(nonEmpty)) =>
      Some(SetProc(j.(folder := j.folder.(hasSource := nonEmpty)), p, Creator(ReadingForSource)))
    case (ReadingForSource, ReadForSource) =>
      if j.folder.manifest.None? then Some(EndProc(j, p))
      else Some(SetProc(j, p, Creator(WritingSource(j.folder.manifest.value))))
    case (WritingSource(m), WriteSource(path, filename)) =>
      var described := m.(sourcePath := Some(path), sourceType := Some("local"), originalFilename := Some(filename));
      Some(SetProc(j.(folder := j.folder.(manifest := Some(described))), p, Creator(NamingRow(filename))))
    case (NamingRow(filename), NameRow) =>
      var row := if j.row.Some? then Some(j.row.value.(originalFilename := Some(filename))) else None;
      Some(SetProc(j.(row := row), p, Creator(Enqueuing)))
    case (Enqueuing, EnqueueUpload) => Some(EndProc(j.(row := EnqueueRow(j.row)), p))
    case _ => None
  }

  /** After the ingest stage: transcribe, or record "done", or leave. */
  function Branch(m: Manifest, at: Stage, skipTranscribed: bool): RunPc {
    if !skipTranscribed then AwaitingTranscript(m)
    else if at == Stage.Done then Finalizing
    else Finishing
  }

  function IngestPatch(m: Manifest): ManifestPatch {
    NO_PATCH.(sourcePath := Some(m.sourcePath))
  }

  function TranscribedPatch(t: Transcript): ManifestPatch {
    NO_PATCH.(language := Some(t.language), durationS := Some(t.durationS))
  }

  /** Where a step of a run leaves the stores, the registry and the run itself. */
  datatype Move = Move(row: Option<Row>, folder: Folder, running: Option<Pid>, pc: RunPc)

  /** One atomic step of `run_job`, from where it stands. */
  function RunMove(media: set<string>, j: Job, p: Pid, pc: RunPc, flag: bool, i: Input): Option<Move>
    requires !pc.Finishing?
  {
    var stay := Move(j.row, j.folder, j.running, pc);
    match pc
    case Claimed => Some(stay.(running := Some(p), pc := Registered))
    case Registered =>
      if j.folder.manifest.None? then Some(stay.(pc := Raising))
      else
        var m := j.folder.manifest.value;
        (match InferResumePoint(m, j.folder, media)
         case None => Some(stay.(pc := Finishing))
         case Some(stage) =>
           Some(stay.(pc := Resuming(m, stage, IsStageComplete(Stage.Ingested, m, j.folder, media),
                                     IsStageComplete(Stage.Transcribed, m, j.folder, media)))))
    case Resuming(m, stage, skipIngested, skipTranscribed) =>
      if skipIngested then Some(stay.(pc := Branch(m, stage, skipTranscribed)))
      else if SourceAccepted(m, media) then
        Some(stay.(pc := Reading(Stage.Ingested, IngestPatch(m), ThenReread(stage, skipTranscribed))))
      else Some(stay.(pc := Raising))
    case Reading(stage, patch, andThen) =>
      if j.folder.manifest.None? then Some(stay.(pc := Raising))
      else Some(stay.(pc := Writing(Advance(j.folder.manifest.value, stage, patch, i.now), andThen)))
    case Writing(next, andThen) =>
      Some(stay.(folder := j.folder.(manifest := Some(next)), pc := Projecting(next, andThen)))
    case Projecting(next, andThen) =>
      Some(stay.(row := ProjectRow(j.row, next), pc := Continue(andThen)))
    case Rereading(stage, skipTranscribed) =>
      if j.folder.manifest.None? then Some(stay.(pc := Raising))
      else Some(stay.(pc := Branch(j.folder.manifest.value, stage, skipTranscribed)))
    case AwaitingTranscript(m) =>
      if m.sourcePath.None? then Some(stay.(pc := Raising))
      else
        (match i.result
         case Transcribed(t) => Some(stay.(pc := Saving(t)))
         case SawCancel => if flag then Some(stay.(pc := CancelMarking)) else None
         case Broke => Some(stay.(pc := Raising)))
    case Saving(t) =>
      Some(stay.(folder := j.folder.(transcript := Parsed(t)),
                 pc := Reading(Stage.Transcribed, TranscribedPatch(t), ThenDone)))
    case Finalizing => Some(stay.(pc := if flag then CancelMarking else Reading(Stage.Done, NO_PATCH, ThenFinish)))
    case Raising => Some(stay.(row := FailRow(j.row, i.error), pc := Finishing))
    case CancelMarking => Some(stay.(row := CancelRow(j.row), pc := if j.row.Some? then Removing else Finishing))
    case Removing => if Remains(i.rest, j.folder) then Some(stay.(folder := i.rest, pc := Finishing)) else None
  }

  /** After the last statement of a stage update. */
  function Continue(andThen: After): RunPc {
    match andThen
    case ThenReread(stage, skipTranscribed) => Rereading(stage, skipTranscribed)
    case ThenDone => Reading(Stage.Done, NO_PATCH, ThenFinish)
    case ThenFinish => Finishing
  }

  /** The `finally` block takes the flag out of the registry, whoever put it there. */
  function ApplyRun(media: set<string>, j: Job, p: Pid, i: Input): Option<Job>
    requires p in j.procs && j.procs[p].Runner?
  {
    var proc := j.procs[p];
    if proc.run.Finishing? then Some(EndProc(j.(running := None), p))
    else
      match RunMove(media, j, p, proc.run, proc.flag, i)
      case None => None
      case Some(to) =>
        Some(SetProc(j.(row := to.row, folder := to.folder, running := to.running), p, Runner(to.pc, proc.flag)))
  }

  /** An exception can end any step inside the try block. */
  predicate CanRaise(pc: RunPc) {
    !pc.Claimed? && !pc.Raising? && !pc.CancelMarking? && !pc.Removing? && !pc.Finishing?
  }

  function ApplyCancel(j: Job, p: Pid, s: CancelStep): Option<Job> {
    if s.CancelSelect? then
      if p in j.procs then None
      else if j.row.None? || Terminal(j.row.value.status) then Some(j)
      else if j.row.value.status == Status.Queued then Some(SetProc(j, p, Canceller(FoundQueued)))
      else Some(SetProc(j, p, Canceller(FoundActive)))
    else if p !in j.procs || !j.procs[p].Canceller? then None
    else
      match (j.procs[p].cancel, s)
      case (FoundQueued, CancelQueued) =>
        if CancelQueuedRow(j.row) != j.row then
          Some(SetProc(j.(row := CancelQueuedRow(j.row)), p, Canceller(WonQueued)))
        else Some(SetProc(j, p, Canceller(FoundActive)))
      case (WonQueued, CancelJob) =>
        if j.row.None? then Some(EndProc(j, p))
        else Some(SetProc(j.(row := CancelRow(j.row)), p, Canceller(RemovingFolder)))
      case (RemovingFolder, CancelRemove(rest)) =>
        if Remains(rest, j.folder) then Some(EndProc(j.(folder := rest), p)) else None
      case (FoundActive, CancelActive) =>
        if j.running.Some? && j.running.value in j.procs && j.procs[j.running.value].Runner? then
          var q := j.running.value;
          Some(EndProc(SetProc(j, q, j.procs[q].(flag := true)), p))
        else Some(EndProc(j, p))
      case _ => None
  }

  function ApplyWatch(j: Job, p: Pid, s: WatchStep): Option<Job> {
    match s
    case WatchSelect =>
      if p !in j.procs && j.row.Some? && Active(j.row.value.status) then Some(SetProc(j, p, Watcher(false))) else None
    case WatchCheck(stale) =>
      if p !in j.procs || j.procs[p] != Watcher(false) then None
      else if j.row.Some? && !Terminal(j.row.value.status) && stale then Some(SetProc(j, p, Watcher(true)))
      else Some(EndProc(j, p))
    case WatchMark =>
      if p !in j.procs || j.procs[p] != Watcher(true) then None
      else Some(EndProc(j.(row := FailRow(j.row, "stalled")), p))
  }

  function ApplyBoot(media: set<string>, j: Job, s: BootStep): Option<Job> {
    match (j.phase, s)
    case (Down, Reconcile) => Some(j.(row := HealRow(j.row, j.folder.manifest), phase := Reconciled))
    case (Reconciled, SweepRead(now)) =>
      if j.row.None? || !Active(j.row.value.status) then Some(j.(phase := Ready))
      else if j.folder.manifest.None? then Some(j.(phase := SweepFailing(None)))
      else
        var m := j.folder.manifest.value;
        var point := InferResumePoint(m, j.folder, media);
        if point == None || point == Some(Stage.Done) then
          Some(j.(phase := SweepWriting(Advance(m, Stage.Done, NO_PATCH, now))))
        else Some(j.(phase := SweepFailing(Some(m))))
    case (SweepWriting(next), SweepWrite) =>
      Some(j.(folder := j.folder.(manifest := Some(next)), phase := SweepProjecting(next)))
    case (SweepProjecting(next), SweepProject) => Some(j.(row := ProjectRow(j.row, next), phase := Ready))
    case (SweepFailing(found), SweepFail) =>
      Some(j.(row := FailRow(j.row, INTERRUPTED_ERROR),
              phase := if found.None? then Ready else SweepSpoiling(found.value)))
    case (SweepSpoiling(left), SweepSpoil) =>
      Some(j.(folder := j.folder.(manifest := Some(Spoiled(left))), phase := Ready))
    case _ => None
  }

  /** A step of job `id`, or `None` where it cannot happen. Only the upload that
      created a job enqueues it while it is still uploading. */
  function Apply(id: JobId, media: set<string>, j: Job, s: Step): Option<Job> {
    if s.Boot? then ApplyBoot(media, j, s.boot)
    else if j.phase != Up then None
    else
      match s
      case Create(p, c) => if p in j.procs && j.procs[p].Creator? then ApplyCreate(id, j, p, c) else None
      case Enqueue =>
        if j.row.Some? && j.row.value.status == Status.Uploading then None else Some(j.(row := EnqueueRow(j.row)))
      case Select(p) =>
        if p in j.procs || j.row.None? || j.row.value.status != Status.Queued then None
        else Some(SetProc(j, p, Puller))
      case Claim(p) =>
        if p !in j.procs || !j.procs[p].Puller? then None
        else if ClaimRow(j.row) != j.row then
          Some(SetProc(j.(row := ClaimRow(j.row), claimed := true), p, Runner(Claimed, false)))
        else Some(EndProc(j, p))
      case Run(p, i) => if p in j.procs && j.procs[p].Runner? then ApplyRun(media, j, p, i) else None
      case Raise(p) =>
        if p in j.procs && j.procs[p].Runner? && CanRaise(j.procs[p].run) then
          Some(SetProc(j, p, j.procs[p].(run := Raising)))
        else None
      case Cancel(p, c) => ApplyCancel(j, p, c)
      case Watch(p, w) => ApplyWatch(j, p, w)
      case Abort(p) =>
        if p !in j.procs then None
        else Some(EndProc(if j.procs[p].Runner? then j.(running := None) else j, p))
  }

  /** A new job: its row is INSERTed by a creation that then makes the folder. */
  function NewJob(upload: bool, createdAt: nat, sourceType: Option<string>, sourcePath: Option<string>, p: Pid): Job {
    var row := if upload then NewRow(Status.Uploading, createdAt, Some("local"), None)
               else NewRow(Status.Queued, createdAt, sourceType, sourcePath);
    Job(Some(row), EMPTY_FOLDER, map[p := Creator(MakingManifest(upload))], None, false, Up)
  }

  /** A crash ends every process and empties the registry; the stores stay. */
  function Crashed(j: Job): Job {
    j.(procs := map[], running := None, claimed := false, phase := Down)
  }

  /** The worker's claim went through in this step. */
  predicate ClaimsIn(j: Job, s: Step) {
    s.Claim? && ClaimRow(j.row) != j.row
  }
}
