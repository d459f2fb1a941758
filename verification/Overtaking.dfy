/** How often a queued job can be overtaken. */
module Overtaking {
  import opened Jobs
  import opened Protocol
  import opened ProtocolInvariant
  import opened ProtocolTheorems
  import opened SystemRun

  predicate PullerIn(j: Job, q: Pid) {
    q in j.procs && j.procs[q].Puller?
  }

  ghost predicate HasPuller(j: Job) {
    exists p :: PullerIn(j, p)
  }

  /** A job that could still be claimed before one created at `c`: unclaimed, and
      created before it or already SELECTed by some worker. */
  ghost predicate InFront(j: Job, c: nat) {
    !j.claimed && j.row.Some? && (j.row.value.createdAt < c || HasPuller(j))
  }

  ghost function Ahead(s: System, id: JobId, c: nat): set<JobId> {
    set k | k in s.jobs && k != id && InFront(s.jobs[k], c)
  }

  /** Creation times are distinct and lie in the past. */
  ghost predicate ClockOk(s: System) {
    && (forall k | k in s.jobs && s.jobs[k].row.Some? :: s.jobs[k].row.value.createdAt < s.clock)
    && (forall k, l | k in s.jobs && l in s.jobs && s.jobs[k].row.Some? && s.jobs[l].row.Some? && k != l ::
          s.jobs[k].row.value.createdAt != s.jobs[l].row.value.createdAt)
  }

  /** No step changes a row's creation time or brings a deleted row back. */
  lemma CreatedAtStays(id: JobId, media: set<string>, j: Job, s: Step)
    requires Apply(id, media, j, s).Some?
    ensures Apply(id, media, j, s).value.row.Some? ==>
              j.row.Some? && Apply(id, media, j, s).value.row.value.createdAt == j.row.value.createdAt
  {
  }

  lemma CreateAddsNoPuller(id: JobId, j: Job, p: Pid, s: CreateStep, q: Pid)
    requires p in j.procs && j.procs[p].Creator? && ApplyCreate(id, j, p, s).Some?
    ensures PullerIn(ApplyCreate(id, j, p, s).value, q) ==> PullerIn(j, q)
  {
  }

  lemma RunAddsNoPuller(media: set<string>, j: Job, p: Pid, i: Input, q: Pid)
    requires p in j.procs && j.procs[p].Runner? && ApplyRun(media, j, p, i).Some?
    ensures PullerIn(ApplyRun(media, j, p, i).value, q) ==> PullerIn(j, q)
  {
  }

  lemma CancelAddsNoPuller(j: Job, p: Pid, s: CancelStep, q: Pid)
    requires ApplyCancel(j, p, s).Some?
    ensures PullerIn(ApplyCancel(j, p, s).value, q) ==> PullerIn(j, q)
  {
  }

  /** Only a SELECT adds a puller. */
  lemma PullerWasThere(id: JobId, media: set<string>, j: Job, s: Step, p: Pid)
    requires Apply(id, media, j, s).Some? && !s.Select?
    requires PullerIn(Apply(id, media, j, s).value, p)
    ensures PullerIn(j, p)
  {
    match s
    case Create(q, c) => CreateAddsNoPuller(id, j, q, c, p);
    case Run(q, i) => RunAddsNoPuller(media, j, q, i, p);
    case Cancel(q, c) => CancelAddsNoPuller(j, q, c, p);
    case _ =>
  }

  lemma PullersComeFromSelect(id: JobId, media: set<string>, j: Job, s: Step)
    requires Apply(id, media, j, s).Some? && !s.Select?
    ensures HasPuller(Apply(id, media, j, s).value) ==> HasPuller(j)
  {
    if HasPuller(Apply(id, media, j, s).value) {
      var p :| PullerIn(Apply(id, media, j, s).value, p);
      PullerWasThere(id, media, j, s, p);
    }
  }

  /** Within a job, only a SELECT can bring it in front, and a claim takes it out. */
  lemma InFrontStep(id: JobId, media: set<string>, j: Job, s: Step, c: nat)
    requires Inv(j) && Apply(id, media, j, s).Some?
    ensures InFront(Apply(id, media, j, s).value, c) && !s.Select? ==> InFront(j, c)
    ensures ClaimsIn(j, s) ==> InFront(j, c) && !InFront(Apply(id, media, j, s).value, c)
  {
    CreatedAtStays(id, media, j, s);
    ClaimIsFirst(id, media, j, s);
    if ClaimsIn(j, s) {
      assert PullerIn(j, s.pid);
    }
    if !s.Select? {
      PullersComeFromSelect(id, media, j, s);
    }
  }

  /** While `id` is queued, whatever job a SELECT picks was created before it. */
  lemma SelectTakesEarlier(s: System, id: JobId, k: JobId)
    requires SystemInv(s) && ClockOk(s) && id in s.jobs && InLine(s.jobs[id])
    requires FirstInLine(s, k) && k != id
    ensures InFront(s.jobs[k], s.jobs[id].row.value.createdAt)
  {
  }

  lemma NextKeepsClock(s: System, step: SysStep)
    requires ClockOk(s) && Next(s, step).Some?
    ensures ClockOk(Next(s, step).value)
  {
    if step.Do? {
      CreatedAtStays(step.id, s.media, s.jobs[step.id], step.step);
    }
  }

  lemma {:induction false} RunKeepsClock(states: seq<System>, steps: seq<SysStep>, n: nat)
    requires IsRun(states, steps) && n < |states|
    ensures ClockOk(states[n])
  {
    if n != 0 {
      RunKeepsClock(states, steps, n - 1);
      RunAt(states, steps, n - 1);
      NextKeepsClock(states[n - 1], steps[n - 1]);
    }
  }

  predicate ClaimsOther(s: System, step: SysStep, id: JobId) {
    step.Do? && step.id != id && Claims(s, step, step.id)
  }

  /** No step short of a crash puts a job in front of a queued one; a claim of another
      job takes one away. */
  lemma AheadShrinks(s: System, step: SysStep, id: JobId)
    requires SystemInv(s) && ClockOk(s) && Next(s, step).Some? && !step.Crash?
    requires id in s.jobs && InLine(s.jobs[id])
    ensures var c := s.jobs[id].row.value.createdAt;
            && Ahead(Next(s, step).value, id, c) <= Ahead(s, id, c)
            && (ClaimsOther(s, step, id) ==>
                  step.id in Ahead(s, id, c) && step.id !in Ahead(Next(s, step).value, id, c))
  {
    var t := Next(s, step).value;
    var c := s.jobs[id].row.value.createdAt;
    if step.Do? && step.id != id {
      InFrontStep(step.id, s.media, s.jobs[step.id], step.step, c);
      if step.step.Select? {
        SelectTakesEarlier(s, id, step.id);
      }
    }
    if step.Submit? {
      assert !HasPuller(t.jobs[step.id]);
    }
    forall k | k in Ahead(t, id, c) ensures k in Ahead(s, id, c) {
      if step.Serve? {
        assert t.jobs[k].procs == s.jobs[k].procs;
      }
    }
  }

  /** How many claims of other jobs succeed in steps `from` to `to`. */
  ghost function Overtakings(states: seq<System>, steps: seq<SysStep>, id: JobId, from: nat, to: nat): nat
    requires from <= to <= |steps| <= |states|
  {
    if from == to then 0
    else Overtakings(states, steps, id, from, to - 1) + if ClaimsOther(states[to - 1], steps[to - 1], id) then 1 else 0
  }

  ghost predicate StaysQueued(states: seq<System>, steps: seq<SysStep>, id: JobId, from: nat, to: nat)
    requires from <= to <= |steps| < |states|
  {
    && (forall i :: from <= i <= to ==> id in states[i].jobs && InLine(states[i].jobs[id]))
    && (forall i :: from <= i < to ==> !steps[i].Crash?)
  }

  lemma CreatedAtOfQueued(s: System, step: SysStep, id: JobId)
    requires Next(s, step).Some? && id in s.jobs && id in Next(s, step).value.jobs
    requires s.jobs[id].row.Some? && Next(s, step).value.jobs[id].row.Some?
    ensures Next(s, step).value.jobs[id].row.value.createdAt == s.jobs[id].row.value.createdAt
  {
    if step.Do? && step.id == id {
      CreatedAtStays(id, s.media, s.jobs[id], step.step);
    }
  }

  lemma OneStepOvertakes(s: System, step: SysStep, id: JobId)
    requires SystemInv(s) && ClockOk(s) && Next(s, step).Some? && !step.Crash?
    requires id in s.jobs && InLine(s.jobs[id])
    ensures var c := s.jobs[id].row.value.createdAt;
            |Ahead(Next(s, step).value, id, c)| + (if ClaimsOther(s, step, id) then 1 else 0) <= |Ahead(s, id, c)|
  {
    var c := s.jobs[id].row.value.createdAt;
    AheadShrinks(s, step, id);
    SubsetIsSmaller(Ahead(Next(s, step).value, id, c), Ahead(s, id, c));
  }

  lemma {:induction false} OvertakingsPlusAhead(states: seq<System>, steps: seq<SysStep>, id: JobId, from: nat,
                                                to: nat, c: nat)
    requires IsRun(states, steps) && from <= to <= |steps| && StaysQueued(states, steps, id, from, to)
    requires c == states[from].jobs[id].row.value.createdAt
    ensures states[to].jobs[id].row.value.createdAt == c
    ensures Overtakings(states, steps, id, from, to) + |Ahead(states[to], id, c)| <= |Ahead(states[from], id, c)|
  {
    if from < to {
      OvertakingsPlusAhead(states, steps, id, from, to - 1, c);
      RunKeepsSystemInv(states, steps, to - 1);
      RunKeepsClock(states, steps, to - 1);
      RunAt(states, steps, to - 1);
      CreatedAtOfQueued(states[to - 1], steps[to - 1], id);
      OneStepOvertakes(states[to - 1], steps[to - 1], id);
    }
  }

  lemma SubsetIsSmaller(a: set<JobId>, b: set<JobId>)
    requires a <= b
    ensures |a| <= |b|
    ensures a != b ==> |a| < |b|
  {
    assert b == a + (b - a);
  }

  /** Bounded overtaking: while a job stays queued and nothing crashes, the successful
      claims of other jobs are at most the unclaimed jobs that were created before it or
      that a worker had already SELECTed when it was queued. */
  lemma OvertakingIsBounded(states: seq<System>, steps: seq<SysStep>, id: JobId, from: nat, to: nat)
    requires IsRun(states, steps) && from <= to <= |steps| && StaysQueued(states, steps, id, from, to)
    ensures Overtakings(states, steps, id, from, to)
            <= |Ahead(states[from], id, states[from].jobs[id].row.value.createdAt)|
  {
    OvertakingsPlusAhead(states, steps, id, from, to, states[from].jobs[id].row.value.createdAt);
  }

  /** The unclaimed jobs created before `c`, but for `id`. */
  ghost function Earlier(s: System, id: JobId, c: nat): set<JobId> {
    set k | k in s.jobs && k != id && InEarlier(s.jobs[k], c)
  }

  predicate InEarlier(j: Job, c: nat) {
    !j.claimed && j.row.Some? && j.row.value.createdAt < c
  }

  /** If no worker has already SELECTed a job created later, only unclaimed jobs created
      earlier can go first. */
  lemma OnlyEarlierJobsOvertake(states: seq<System>, steps: seq<SysStep>, id: JobId, from: nat, to: nat)
    requires IsRun(states, steps) && from <= to <= |steps| && StaysQueued(states, steps, id, from, to)
    requires var c := states[from].jobs[id].row.value.createdAt;
             forall k | k in states[from].jobs && states[from].jobs[k].row.Some?
                        && states[from].jobs[k].row.value.createdAt > c :: !HasPuller(states[from].jobs[k])
    ensures Overtakings(states, steps, id, from, to)
            <= |Earlier(states[from], id, states[from].jobs[id].row.value.createdAt)|
  {
    var c := states[from].jobs[id].row.value.createdAt;
    RunKeepsClock(states, steps, from);
    OvertakingIsBounded(states, steps, id, from, to);
    SubsetIsSmaller(Ahead(states[from], id, c), Earlier(states[from], id, c));
  }

  // ---------------------------------------------------------------- whatever was pending

  /** The claim in step `i` acts on a SELECT that came in or after step `from`. */
  ghost predicate SelectedSince(steps: seq<SysStep>, from: nat, i: nat)
    requires from <= i < |steps|
  {
    && steps[i].Do? && steps[i].step.Claim?
    && exists c :: from <= c < i && steps[c] == Do(steps[i].id, Select(steps[i].step.pid))
  }

  /** 1 if step `i` is a successful claim of another job that acts on a SELECT since `from`. */
  ghost function FreshOvertaking(states: seq<System>, steps: seq<SysStep>, id: JobId, from: nat, i: nat): nat {
    if from <= i < |steps| && i < |states| && ClaimsOther(states[i], steps[i], id) && SelectedSince(steps, from, i)
    then 1 else 0
  }

  ghost function Sum(count: nat -> nat, from: nat, to: nat): nat
    requires from <= to
    decreases (to)
  {
    if from == to then 0 else Sum(count, from, to - 1) + count(to - 1)
  }

  lemma {:induction false} SumIsBounded(count: nat -> nat, left: nat -> nat, from: nat, to: nat)
    requires from <= to
    requires forall i: nat | from <= i < to :: left(i + 1) + count(i) <= left(i)
    ensures Sum(count, from, to) + left(to) <= left(from)
    decreases (to)
  {
    if from < to {
      SumIsBounded(count, left, from, to - 1);
      assert left(to - 1 + 1) + count(to - 1) <= left(to - 1);
    }
  }

  ghost function FreshOvertakings(states: seq<System>, steps: seq<SysStep>, id: JobId, from: nat, to: nat): nat
    requires from <= to
  {
    Sum((i: nat) => FreshOvertaking(states, steps, id, from, i), from, to)
  }

  ghost function EarlierCount(states: seq<System>, id: JobId, c: nat, i: nat): nat {
    if i < |states| then |Earlier(states[i], id, c)| else 0
  }

  /** A row that is there now was there before, with the same creation time. */
  lemma {:induction false} CreatedAtOverRun(states: seq<System>, steps: seq<SysStep>, k: JobId, a: nat, b: nat)
    requires IsRun(states, steps) && a <= b < |states| && k in states[a].jobs
    requires k in states[b].jobs && states[b].jobs[k].row.Some?
    ensures states[a].jobs[k].row.Some?
    ensures states[a].jobs[k].row.value.createdAt == states[b].jobs[k].row.value.createdAt
    decreases b
  {
    if a < b {
      RunAt(states, steps, b - 1);
      JobStaysKnown(states, steps, k, a, b - 1);
      if steps[b - 1].Do? && steps[b - 1].id == k {
        CreatedAtStays(k, states[b - 1].media, states[b - 1].jobs[k], steps[b - 1].step);
      }
      CreatedAtOverRun(states, steps, k, a, b - 1);
    }
  }

  lemma {:induction false} JobStaysKnown(states: seq<System>, steps: seq<SysStep>, k: JobId, a: nat, b: nat)
    requires IsRun(states, steps) && a <= b < |states| && k in states[a].jobs
    ensures k in states[b].jobs
  {
    if a < b {
      JobStaysKnown(states, steps, k, a, b - 1);
      RunAt(states, steps, b - 1);
    }
  }

  /** A job claimed on a SELECT that came while `id` was queued was created earlier. */
  lemma FreshClaimIsEarlier(states: seq<System>, steps: seq<SysStep>, id: JobId, from: nat, i: nat, c: nat)
    requires IsRun(states, steps) && from <= i < |steps| && StaysQueued(states, steps, id, from, i)
    requires c == states[from].jobs[id].row.value.createdAt
    requires ClaimsOther(states[i], steps[i], id) && SelectedSince(steps, from, i)
    ensures steps[i].id in Earlier(states[i], id, c)
  {
    var k := steps[i].id;
    var n :| from <= n < i && steps[n] == Do(k, Select(steps[i].step.pid));
    RunAt(states, steps, n);
    RunAt(states, steps, i);
    RunKeepsSystemInv(states, steps, i);
    RunKeepsSystemInv(states, steps, n);
    RunKeepsClock(states, steps, n);
    CreatedAtOverRun(states, steps, id, from, n);
    SelectTakesEarlier(states[n], id, k);
    ClaimIsFirst(k, states[i].media, states[i].jobs[k], steps[i].step);
    CreatedAtOverRun(states, steps, k, n, i);
  }

  /** No step short of a crash adds to the earlier jobs; a claim takes its job out. */
  lemma EarlierShrinks(s: System, step: SysStep, id: JobId)
    requires SystemInv(s) && ClockOk(s) && Next(s, step).Some? && !step.Crash?
    requires id in s.jobs && InLine(s.jobs[id])
    ensures var c := s.jobs[id].row.value.createdAt;
            && Earlier(Next(s, step).value, id, c) <= Earlier(s, id, c)
            && (ClaimsOther(s, step, id) ==> step.id !in Earlier(Next(s, step).value, id, c))
  {
    if step.Do? && step.id != id {
      CreatedAtStays(step.id, s.media, s.jobs[step.id], step.step);
      ClaimIsFirst(step.id, s.media, s.jobs[step.id], step.step);
    }
  }

  lemma FreshStep(states: seq<System>, steps: seq<SysStep>, id: JobId, from: nat, i: nat, c: nat)
    requires IsRun(states, steps) && from <= i < |steps| && StaysQueued(states, steps, id, from, i + 1)
    requires c == states[from].jobs[id].row.value.createdAt
    ensures EarlierCount(states, id, c, i + 1) + FreshOvertaking(states, steps, id, from, i)
            <= EarlierCount(states, id, c, i)
  {
    RunKeepsSystemInv(states, steps, i);
    RunKeepsClock(states, steps, i);
    RunAt(states, steps, i);
    CreatedAtOverRun(states, steps, id, from, i);
    EarlierShrinks(states[i], steps[i], id);
    if ClaimsOther(states[i], steps[i], id) && SelectedSince(steps, from, i) {
      FreshClaimIsEarlier(states, steps, id, from, i, c);
    }
    SubsetIsSmaller(Earlier(states[i + 1], id, c), Earlier(states[i], id, c));
  }

  /** Whatever workers were between their SELECT and their UPDATE when the job was
      queued: the claims that begin with a SELECT afterwards and take another job number
      at most the unclaimed jobs created before it. */
  lemma FreshOvertakingIsBounded(states: seq<System>, steps: seq<SysStep>, id: JobId, from: nat, to: nat)
    requires IsRun(states, steps) && from <= to <= |steps| && StaysQueued(states, steps, id, from, to)
    ensures FreshOvertakings(states, steps, id, from, to)
            <= |Earlier(states[from], id, states[from].jobs[id].row.value.createdAt)|
  {
    var c := states[from].jobs[id].row.value.createdAt;
    var count := (i: nat) => FreshOvertaking(states, steps, id, from, i);
    var left := (i: nat) => EarlierCount(states, id, c, i);
    forall i: nat | from <= i < to ensures left(i + 1) + count(i) <= left(i) {
      FreshStep(states, steps, id, from, i, c);
    }
    SumIsBounded(count, left, from, to);
  }
}
