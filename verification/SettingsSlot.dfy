/** The running settings, the slot for a change that waits for a restart, and the file
    that carries both across it. */
module SettingsSlot {
  import opened Wrappers

  /** A PATCH installs its values unvalidated, so the three fields that a file must carry
      can be null in memory. */
  datatype Settings =
    Settings(dataDir: string, backend: string, hfToken: Option<string>, qualityPreset: Option<string>,
             overrides: Option<string>, concurrentModels: Option<bool>, vramBudgetFraction: Option<real>)

  /** The fields that were sent; an unset field is the outer `None`, a null the inner one. */
  datatype Patch =
    Patch(dataDir: Option<string>, hfToken: Option<Option<string>>, qualityPreset: Option<Option<string>>,
          overrides: Option<Option<string>>, concurrentModels: Option<Option<bool>>,
          vramBudgetFraction: Option<Option<real>>)

  /** The settings file: the active settings, and the sibling key if it is there. */
  datatype File = File(active: Settings, pending: Option<Settings>)

  datatype Memory = Memory(current: Settings, pending: Option<Settings>)

  datatype Failure = NotFound | Invalid | WriteFailed

  // ---------------------------------------------------------------- patches

  function Patched(s: Settings, p: Patch): Settings {
    s.(dataDir := if p.dataDir.Some? then p.dataDir.value else s.dataDir,
       hfToken := if p.hfToken.Some? then p.hfToken.value else s.hfToken,
       qualityPreset := if p.qualityPreset.Some? then p.qualityPreset.value else s.qualityPreset,
       overrides := if p.overrides.Some? then p.overrides.value else s.overrides,
       concurrentModels := if p.concurrentModels.Some? then p.concurrentModels.value else s.concurrentModels,
       vramBudgetFraction := if p.vramBudgetFraction.Some? then p.vramBudgetFraction.value else s.vramBudgetFraction)
  }

  /** The patch names a data directory other than the running one. */
  predicate NeedsRestart(s: Settings, p: Patch) {
    p.dataDir.Some? && p.dataDir.value != s.dataDir
  }

  function Update(m: Memory, p: Patch): Memory {
    if NeedsRestart(m.current, p) then m.(pending := Some(Patched(m.current, p)))
    else m.(current := Patched(m.current, p))
  }

  function Dump(m: Memory): File {
    File(m.current, m.pending)
  }

  /** A patch field by field. When it names another directory than the running one, memory
      stays and the slot takes the running settings with every sent field replaced;
      otherwise the slot stays and the running settings take the sent fields. No patch
      reaches the backend. */
  lemma UpdateFieldByField(m: Memory, p: Patch)
    ensures var moves := p.dataDir.Some? && p.dataDir.value != m.current.dataDir;
            && (if moves then Update(m, p).current == m.current && Update(m, p).pending.Some?
                else Update(m, p).pending == m.pending)
            && var after := if moves then Update(m, p).pending.value else Update(m, p).current;
               && after.backend == m.current.backend
               && (after.dataDir == if p.dataDir.Some? then p.dataDir.value else m.current.dataDir)
               && (after.hfToken == if p.hfToken.Some? then p.hfToken.value else m.current.hfToken)
               && (after.qualityPreset == if p.qualityPreset.Some? then p.qualityPreset.value
                                          else m.current.qualityPreset)
               && (after.overrides == if p.overrides.Some? then p.overrides.value else m.current.overrides)
               && (after.concurrentModels == if p.concurrentModels.Some? then p.concurrentModels.value
                                             else m.current.concurrentModels)
               && (after.vramBudgetFraction == if p.vramBudgetFraction.Some? then p.vramBudgetFraction.value
                                               else m.current.vramBudgetFraction)
    ensures Dump(Update(m, p)).active == Update(m, p).current && Dump(Update(m, p)).pending == Update(m, p).pending
  {
  }

  /** What validation accepts from a file. */
  predicate Loadable(s: Settings) {
    s.qualityPreset.Some? && s.concurrentModels.Some? && s.vramBudgetFraction.Some?
  }

  /** An empty token reads back as none. */
  function Read(s: Settings): Settings {
    if s.hfToken == Some("") then s.(hfToken := None) else s
  }

  function ReadFile(f: File): Result<Memory, Failure> {
    if (f.pending.Some? && !Loadable(f.pending.value)) || !Loadable(f.active) then Err(Invalid)
    else Ok(Memory(Read(f.active), if f.pending.Some? then Some(Read(f.pending.value)) else None))
  }

  /** The slot, installed. */
  function Installed(m: Memory): Memory {
    Memory(if m.pending.Some? then m.pending.value else m.current, None)
  }

  /** A restart from the file; one that does not load is replaced by default settings. */
  function Boot(f: File, defaults: Settings): Memory {
    match ReadFile(f)
    case Err(_) => Memory(defaults, None)
    case Ok(m) => Installed(m)
  }

  /** A sequence of PATCH calls; the ones whose disk write fails change nothing. */
  datatype Call = Call(patch: Patch, written: bool)

  function AfterCalls(m: Memory, calls: seq<Call>): Memory {
    if calls == [] then m
    else
      var last := calls[|calls| - 1];
      var before := AfterCalls(m, calls[..|calls| - 1]);
      if last.written then Update(before, last.patch) else before
  }

  predicate Moves(s: Settings, c: Call) {
    c.written && NeedsRestart(s, c.patch)
  }

  /** The position after the last call that asked for another directory, or 0. */
  function LastMove(s: Settings, calls: seq<Call>): (n: nat)
    ensures n <= |calls|
    ensures n > 0 ==> Moves(s, calls[n - 1])
    ensures forall k :: n <= k < |calls| ==> !Moves(s, calls[k])
  {
    if calls == [] then 0
    else if Moves(s, calls[|calls| - 1]) then |calls|
    else
      var n := LastMove(s, calls[..|calls| - 1]);
      assert forall k :: n <= k < |calls| - 1 ==> calls[..|calls| - 1][k] == calls[k];
      n
  }

  /** The running directory never changes. The slot holds the running settings as they
      were at the last move, with that move's patch; before any move, what it held. */
  lemma {:induction false} SlotHoldsLastMove(m: Memory, calls: seq<Call>)
    ensures AfterCalls(m, calls).current.dataDir == m.current.dataDir
    ensures var n := LastMove(m.current, calls);
            AfterCalls(m, calls).pending
            == if n == 0 then m.pending else Some(Patched(AfterCalls(m, calls[..n - 1]).current, calls[n - 1].patch))
  {
    if calls != [] {
      var before := calls[..|calls| - 1];
      SlotHoldsLastMove(m, before);
      var n := LastMove(m.current, calls);
      if 0 < n < |calls| {
        assert before[..n - 1] == calls[..n - 1];
      }
    }
  }

  /** After a restart the data directory is the last one patched that differed from the
      running one, or the running one if there was none. */
  lemma RestartInstallsLastMove(s: Settings, calls: seq<Call>, defaults: Settings)
    requires var m := AfterCalls(Memory(s, None), calls); ReadFile(Dump(m)).Ok?
    ensures var n := LastMove(s, calls);
            Boot(Dump(AfterCalls(Memory(s, None), calls)), defaults).current.dataDir
            == if n == 0 then s.dataDir else calls[n - 1].patch.dataDir.value
  {
    SlotHoldsLastMove(Memory(s, None), calls);
  }

  /** A file is read exactly when neither settings in it lack one of the three fields; then
      both come back field by field, but that an empty token is none. */
  lemma FileIsReadIff(f: File)
    ensures ReadFile(f).Ok?
            <==> && f.active.qualityPreset.Some? && f.active.concurrentModels.Some? && f.active.vramBudgetFraction.Some?
                 && (f.pending.Some? ==>
                       && f.pending.value.qualityPreset.Some? && f.pending.value.concurrentModels.Some?
                       && f.pending.value.vramBudgetFraction.Some?)
    ensures ReadFile(f).Ok? ==>
              && ReadFile(f).value.current
                 == f.active.(hfToken := if f.active.hfToken == Some("") then None else f.active.hfToken)
              && (f.pending.None? ==> ReadFile(f).value.pending == None)
              && (f.pending.Some? ==>
                    ReadFile(f).value.pending
                    == Some(f.pending.value.(hfToken := if f.pending.value.hfToken == Some("") then None
                                                        else f.pending.value.hfToken)))
  {
  }

  /** Reading the file back restores memory exactly when no required field was set to
      null and no token to the empty string. */
  lemma LoadRestoresIff(m: Memory)
    ensures ReadFile(Dump(m)) == Ok(m)
            <==> && m.current.qualityPreset.Some? && m.current.concurrentModels.Some?
                 && m.current.vramBudgetFraction.Some? && m.current.hfToken != Some("")
                 && (m.pending.Some? ==>
                       && m.pending.value.qualityPreset.Some? && m.pending.value.concurrentModels.Some?
                       && m.pending.value.vramBudgetFraction.Some? && m.pending.value.hfToken != Some(""))
  {
    FileIsReadIff(Dump(m));
  }

  predicate SendsNull(p: Patch) {
    p.qualityPreset == Some(None) || p.concurrentModels == Some(None) || p.vramBudgetFraction == Some(None)
  }

  /** Calls that send no null keep the file loadable over any run. */
  lemma {:induction false} FileStaysLoadable(m: Memory, calls: seq<Call>)
    requires ReadFile(Dump(m)).Ok?
    requires forall c | c in calls :: !SendsNull(c.patch)
    ensures ReadFile(Dump(AfterCalls(m, calls))).Ok?
  {
    if calls != [] {
      var last := calls[|calls| - 1];
      assert last in calls;
      FileStaysLoadable(m, calls[..|calls| - 1]);
    }
  }

  /** One written null is enough for the next boot to fall back to default settings, the
      waiting directory included. */
  lemma NullLosesEverything(m: Memory, p: Patch, defaults: Settings)
    requires SendsNull(p)
    ensures Boot(Dump(Update(m, p)), defaults) == Memory(defaults, None)
  {
  }

  /** A change that takes effect at once survives the next restart exactly when nothing
      waits in the slot, or what waits agrees with it: the slot carries its own, older
      copy of every field. */
  lemma HotSwapSurvivesIff(m: Memory, p: Patch, defaults: Settings)
    requires !NeedsRestart(m.current, p) && ReadFile(Dump(Update(m, p))).Ok?
    ensures Boot(Dump(Update(m, p)), defaults).current == Read(Patched(m.current, p))
            <==> m.pending.None? || Read(m.pending.value) == Read(Patched(m.current, p))
    ensures m.pending.Some? ==> Boot(Dump(Update(m, p)), defaults).current == Read(m.pending.value)
  {
  }

  /** Two moves do not add up: whatever the first one carried besides its directory is
      not in what the second leaves in the slot. */
  lemma SecondMoveForgetsFirst(m: Memory, p: Patch, q: Patch)
    requires NeedsRestart(m.current, p) && NeedsRestart(m.current, q)
    ensures Update(Update(m, p), q) == Update(m, q)
  {
  }

  /** Booting again changes nothing. */
  lemma BootIsStable(f: File, defaults: Settings)
    requires Loadable(defaults) && defaults.hfToken != Some("")
    ensures Boot(Dump(Boot(f, defaults)), defaults) == Boot(f, defaults)
  {
  }

  // ---------------------------------------------------------------- a process

  /** The memory of a running process and the file on disk. */
  datatype Process = Process(memory: Memory, file: File)

  /** A new process: it reads the file, or replaces one that is missing or rejected by
      the defaults, and installs a change that waited. */
  function Started(disk: Option<File>, defaults: Settings): Process {
    if disk.None? || ReadFile(disk.value).Err? then Process(Memory(defaults, None), File(defaults, None))
    else
      var m := Installed(ReadFile(disk.value).value);
      Process(m, if disk.value.pending.Some? then Dump(m) else disk.value)
  }

  function Served(p: Process, calls: seq<Call>): Process {
    if calls == [] then p
    else
      var before := Served(p, calls[..|calls| - 1]);
      var last := calls[|calls| - 1];
      if last.written then
        var m := Update(before.memory, last.patch);
        Process(m, Dump(m))
      else before
  }

  /** The file says what memory holds. */
  predicate InStep(p: Process) {
    p.file == Dump(p.memory)
  }

  /** After a boot the file is in step unless it was accepted as it is, with nothing
      waiting, and carries an empty token. */
  predicate StartsInStep(disk: Option<File>) {
    disk.None? || ReadFile(disk.value).Err? || disk.value.pending.Some? || disk.value.active.hfToken != Some("")
  }

  lemma StartedInStepIff(disk: Option<File>, defaults: Settings)
    ensures InStep(Started(disk, defaults)) <==> StartsInStep(disk)
  {
  }

  /** Over any run of a process, from its boot through any calls, some with failing
      writes: the file says what memory holds exactly when the boot left it so or a call
      has been written since; and memory is what the calls make of the boot's. */
  lemma {:induction false} FileSaysMemoryIff(disk: Option<File>, defaults: Settings, calls: seq<Call>)
    ensures var p := Served(Started(disk, defaults), calls);
            && p.memory == AfterCalls(Started(disk, defaults).memory, calls)
            && (InStep(p) <==> StartsInStep(disk) || exists k :: 0 <= k < |calls| && calls[k].written)
  {
    if calls == [] {
      StartedInStepIff(disk, defaults);
    } else {
      var n := |calls| - 1;
      FileSaysMemoryIff(disk, defaults, calls[..n]);
      assert forall k :: 0 <= k < n ==> calls[..n][k] == calls[k];
      assert calls[n].written ==> exists k :: 0 <= k < |calls| && calls[k].written;
    }
  }

  /** Whether or not it is in step, the next process starts from what memory held, an
      empty token read as none. */
  lemma RestartGoesOn(disk: Option<File>, defaults: Settings, calls: seq<Call>)
    ensures var p := Served(Started(disk, defaults), calls);
            Started(Some(p.file), defaults).memory == Boot(Dump(p.memory), defaults)
  {
    FileSaysMemoryIff(disk, defaults, calls);
    NothingWrittenNothingChanged(Started(disk, defaults), calls);
  }

  lemma {:induction false} NothingWrittenNothingChanged(p: Process, calls: seq<Call>)
    ensures (forall k :: 0 <= k < |calls| ==> !calls[k].written) ==> Served(p, calls) == p
  {
    if calls != [] && forall k :: 0 <= k < |calls| ==> !calls[k].written {
      assert forall k :: 0 <= k < |calls| - 1 ==> calls[..|calls| - 1][k] == calls[k];
      NothingWrittenNothingChanged(p, calls[..|calls| - 1]);
    }
  }

  // ---------------------------------------------------------------- the service

  class SettingsService {
    var settings: Option<Settings>
    var pending: Option<Settings>
    var disk: Option<File>

    ghost function Contents(): Memory
      reads this
      requires settings.Some?
    {
      Memory(settings.value, pending)
    }

    /** The process as a value, once it has started. */
    ghost function State(): Process
      reads this
      requires settings.Some? && disk.Some?
    {
      Process(Contents(), disk.value)
    }

    constructor (disk: Option<File>)
      ensures settings == None && pending == None && this.disk == disk
    {
      settings, pending, this.disk := None, None, disk;
    }

    method Load() returns (result: Result<Settings, Failure>)
      modifies this`pending
      ensures disk == None ==> result == Err(NotFound)
      ensures disk.Some? ==> result == match ReadFile(disk.value) case Ok(m) => Ok(m.current) case Err(e) => Err(e)
      ensures pending == if result.Ok? then ReadFile(disk.value).value.pending else old(pending)
    {
      if disk.None? {
        return Err(NotFound);
      }
      var waiting := disk.value.pending;
      if waiting.Some? {
        if !Loadable(waiting.value) {
          return Err(Invalid);
        }
        waiting := Some(Read(waiting.value));
      }
      if !Loadable(disk.value.active) {
        return Err(Invalid);
      }
      pending := waiting;
      result := Ok(Read(disk.value.active));
    }

    /** PATCH: disk first, memory after; a failed write changes neither, a written one
        leaves the file in step. */
    method ApplyUpdate(p: Patch, writeFails: bool) returns (result: Result<(Settings, bool), Failure>)
      requires settings.Some?
      modifies this
      ensures settings.Some?
      ensures old(disk).Some? ==> disk.Some? && State() == Served(old(State()), [Call(p, !writeFails)])
      ensures writeFails ==> settings == old(settings) && pending == old(pending) && disk == old(disk)
      ensures !writeFails ==> disk == Some(Dump(Contents())) && Contents() == Update(old(Contents()), p)
      ensures result == if writeFails then Err(WriteFailed)
                        else Ok((Contents().current, p.dataDir.Some? && p.dataDir.value != old(settings).value.dataDir))
    {
      var existing := settings.value;
      var next := Patched(existing, p);
      assert [Call(p, !writeFails)][..0] == [];
      if p.dataDir.Some? && next.dataDir != existing.dataDir {
        if writeFails {
          return Err(WriteFailed);
        }
        disk := Some(File(existing, Some(next)));
        pending := Some(next);
        return Ok((existing, true));
      }
      if writeFails {
        return Err(WriteFailed);
      }
      disk := Some(File(next, pending));
      settings := Some(next);
      result := Ok((next, false));
    }

    /** Memory first, disk after: when the write fails the file still holds the slot, so
        the boot that gave up can be repeated. */
    method ApplyPending(writeFails: bool) returns (result: Result<bool, Failure>)
      requires settings.Some?
      modifies this
      ensures settings.Some? && Contents() == Installed(old(Contents()))
      ensures old(pending).None? ==> result == Ok(false) && disk == old(disk)
      ensures old(pending).Some? && !writeFails ==> result == Ok(true) && disk == Some(Dump(Contents()))
      ensures old(pending).Some? && writeFails ==> result == Err(WriteFailed) && disk == old(disk)
    {
      if pending.None? {
        return Ok(false);
      }
      var next := pending.value;
      settings, pending := Some(next), None;
      if writeFails {
        return Err(WriteFailed);
      }
      disk := Some(File(next, None));
      result := Ok(true);
    }

    /** The settings part of a boot of a new process. */
    method Start(defaults: Settings)
      requires settings == None && pending == None
      modifies this
      ensures settings.Some? && disk.Some? && State() == Started(old(disk), defaults)
      ensures InStep(State()) <==> StartsInStep(old(disk))
    {
      var loaded := Load();
      if loaded.Err? {
        disk := Some(File(defaults, None));
        settings := Some(defaults);
      } else {
        settings := Some(loaded.value);
        var _ := ApplyPending(false);
      }
      StartedInStepIff(old(disk), defaults);
    }
  }
}
