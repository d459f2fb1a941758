/** The model manager's reservations of video memory, and the gate in front of them. */
module Vram {
  import opened Wrappers

  datatype Category = Stt | Diarize | Llm

  datatype ModelSpec = ModelSpec(repoId: string, expectedSizeBytes: Option<nat>)

  datatype LoadedModel = LoadedModel(category: Category, modelId: string, spec: ModelSpec, vramBytes: nat,
                                     loadedAt: string)

  datatype Settings = Settings(concurrentModels: bool, vramBudgetFraction: real)

  /** What the machine answers: the driver's counters, the system memory of a machine
      without a graphics card, or nothing. */
  datatype Reading =
    | Cuda(free: nat, total: nat, torchAlloc: nat)
    | Cpu(totalRam: nat, availableRam: nat, rss: nat)
    | Unreadable

  datatype VramState = VramState(totalMb: nat, availableMb: nat, usedMb: nat)

  const MIB := 0x10_0000

  function Overhead(c: Category): real {
    match c
    case Llm => 1.2
    case Stt => 1.5
    case Diarize => 1.2
  }

  // ---------------------------------------------------------------- the pool

  function Held(live: map<Category, nat>, c: Category): nat {
    if c in live then live[c] else 0
  }

  /** The bytes reserved by all resident models. */
  function Pool(live: map<Category, nat>): nat {
    Held(live, Stt) + Held(live, Diarize) + Held(live, Llm)
  }

  /** Whole mebibytes: every conversion truncates. On the graphics card the pool comes
      on top of what torch has allocated. */
  function ProbeVram(reading: Reading, pool: nat): VramState {
    match reading
    case Cuda(free, total, torchAlloc) =>
      var available := free - pool;
      VramState(total / MIB, if available > 0 then available / MIB else 0, (torchAlloc + pool) / MIB)
    case Cpu(total, available, rss) => VramState(total / MIB, available / MIB, rss / MIB)
    case Unreadable => VramState(0, 0, 0)
  }

  /** On the card every figure is right to within the mebibyte that truncation hides; what
      is free counts without the pool, what is used with it. */
  lemma ProbeTruncates(free: nat, total: nat, torchAlloc: nat, pool: nat)
    ensures var v := ProbeVram(Cuda(free, total, torchAlloc), pool);
            && v.totalMb * 1_048_576 <= total < (v.totalMb + 1) * 1_048_576
            && v.usedMb * 1_048_576 <= torchAlloc + pool < (v.usedMb + 1) * 1_048_576
            && (if free > pool then v.availableMb * 1_048_576 <= free - pool < (v.availableMb + 1) * 1_048_576
                else v.availableMb == 0)
  {
  }

  function ExpectedMb(spec: ModelSpec, c: Category): real {
    var bytes := if spec.expectedSizeBytes.Some? then spec.expectedSizeBytes.value else 0;
    bytes as real / MIB as real * Overhead(c)
  }

  function VramBytes(spec: ModelSpec, c: Category): nat {
    (ExpectedMb(spec, c) * MIB as real).Floor
  }

  function BudgetMb(totalMb: nat, fraction: real): real {
    totalMb as real * fraction
  }

  /** What is left of the budget, in whole mebibytes and never negative. */
  function RoomMb(v: VramState, fraction: real): nat {
    var availableForNew := BudgetMb(v.totalMb, fraction) - v.usedMb as real;
    if availableForNew > 0.0 then availableForNew.Floor else 0
  }

  lemma RoomOnCard(free: nat, total: nat, torchAlloc: nat, pool: nat, fraction: real)
    ensures var room := (total / 1_048_576) as real * fraction - ((torchAlloc + pool) / 1_048_576) as real;
            RoomMb(ProbeVram(Cuda(free, total, torchAlloc), pool), fraction) == if room > 0.0 then room.Floor else 0
  {
    var v := ProbeVram(Cuda(free, total, torchAlloc), pool);
    var room := (total / 1_048_576) as real * fraction - ((torchAlloc + pool) / 1_048_576) as real;
    assert v.totalMb == total / 1_048_576 && v.usedMb == (torchAlloc + pool) / 1_048_576;
    assert BudgetMb(v.totalMb, fraction) - v.usedMb as real == room;
  }

  /** The gate. It is open when nothing could be measured. */
  predicate WithinBudget(v: VramState, fraction: real, expectedMb: real) {
    v.totalMb > 0 ==> v.usedMb as real + expectedMb <= BudgetMb(v.totalMb, fraction)
  }

  // ---------------------------------------------------------------- runs

  datatype Op =
    | Load(c: Category, spec: ModelSpec, settings: Settings, reading: Reading, now: string)
    | Unload(c: Category)

  /** The two maps of the manager. */
  datatype Resident = Resident(live: map<Category, nat>, meta: map<Category, LoadedModel>)

  predicate Admits(r: Resident, op: Op)
    requires op.Load?
  {
    && (r.live == map[] || op.settings.concurrentModels)
    && WithinBudget(ProbeVram(op.reading, Pool(r.live)), op.settings.vramBudgetFraction, ExpectedMb(op.spec, op.c))
  }

  function Reserved(r: Resident, c: Category, spec: ModelSpec, now: string): Resident {
    var loaded := LoadedModel(c, spec.repoId, spec, VramBytes(spec, c), now);
    Resident(r.live[c := loaded.vramBytes], r.meta[c := loaded])
  }

  function Released(r: Resident, c: Category): Resident {
    Resident(r.live - {c}, r.meta - {c})
  }

  function Next(r: Resident, op: Op): Resident {
    match op
    case Unload(c) => Released(r, c)
    case Load(c, spec, _, _, now) => if Admits(r, op) then Reserved(r, c, spec, now) else r
  }

  function After(ops: seq<Op>): Resident {
    if ops == [] then Resident(map[], map[]) else Next(After(ops[..|ops| - 1]), ops[|ops| - 1])
  }

  /** A load sees a readable card of this size and this budget. */
  predicate OnThisCard(op: Op, total: nat, fraction: real) {
    op.Load? ==> op.reading.Cuda? && op.reading.total == total && op.settings.vramBudgetFraction == fraction
  }

  predicate OnCard(ops: seq<Op>, total: nat, fraction: real) {
    forall i :: 0 <= i < |ops| ==> OnThisCard(ops[i], total, fraction)
  }

  predicate OneAtATime(ops: seq<Op>) {
    forall i :: 0 <= i < |ops| && ops[i].Load? ==> !ops[i].settings.concurrentModels
  }

  /** The most the manager may ever have reserved, in bytes. */
  function Ceiling(total: nat, fraction: real): real {
    (BudgetMb(total / MIB, fraction) + 1.0) * MIB as real
  }

  /** What truncating the used memory can hide is less than one mebibyte. */
  lemma TruncationHidesLessThanOne(pool: nat, torchAlloc: nat, expectedMb: real, budgetMb: real)
    requires ((torchAlloc + pool) / MIB) as real + expectedMb <= budgetMb
    ensures (torchAlloc + pool + (expectedMb * MIB as real).Floor) as real < (budgetMb + 1.0) * MIB as real
  {
    var used := (torchAlloc + pool) / MIB;
    assert torchAlloc + pool < (used + 1) * MIB;
    assert (torchAlloc + pool) as real < (used as real + 1.0) * MIB as real;
    assert (expectedMb * MIB as real).Floor as real <= expectedMb * MIB as real;
    assert (used as real + 1.0 + expectedMb) * MIB as real <= (budgetMb + 1.0) * MIB as real;
  }

  lemma PoolWith(live: map<Category, nat>, c: Category, bytes: nat)
    ensures Pool(live[c := bytes]) == Pool(live) - Held(live, c) + bytes
    ensures Pool(live - {c}) == Pool(live) - Held(live, c)
  {
  }

  lemma ProductNotNegative(x: real, y: real)
    requires x >= 0.0 && y >= 0.0
    ensures x * y >= 0.0
  {
  }

  /** The bytes a model takes on the card: half as much again as its file for speech
      recognition, a fifth more for the others; an unknown size counts as nothing. */
  function Footprint(spec: ModelSpec, c: Category): real {
    var size := if spec.expectedSizeBytes.Some? then spec.expectedSizeBytes.value else 0;
    size as real * if c.Stt? then 1.5 else 1.2
  }

  lemma ExpectedIsFootprint(spec: ModelSpec, c: Category)
    ensures ExpectedMb(spec, c) * 1_048_576.0 == Footprint(spec, c)
    ensures ExpectedMb(spec, c) == Footprint(spec, c) / 1_048_576.0
    ensures VramBytes(spec, c) == Footprint(spec, c).Floor
  {
  }

  /** So many bytes used and a model that needs so many mebibytes fit into the fraction of
      the whole mebibytes there are; with less than one there is no limit. */
  predicate FitsBudget(total: nat, used: nat, neededMb: real, fraction: real) {
    total < 1_048_576 || (used / 1_048_576) as real + neededMb <= (total / 1_048_576) as real * fraction
  }

  lemma MeasuredGate(v: VramState, total: nat, used: nat, neededMb: real, fraction: real)
    requires v.totalMb == total / MIB && v.usedMb == used / MIB
    ensures WithinBudget(v, fraction, neededMb) <==> FitsBudget(total, used, neededMb, fraction)
  {
    assert v.totalMb > 0 <==> total >= 1_048_576;
    assert BudgetMb(v.totalMb, fraction) == (total / 1_048_576) as real * fraction;
  }

  /** The gate on the readings' own numbers. With a model resident, loading another needs
      concurrent models; and what torch has allocated, the pool and the new model have to
      fit into the budget. Off the card it is the process's own memory that counts. */
  lemma AdmitsIff(r: Resident, op: Op, neededMb: real)
    requires op.Load? && neededMb == Footprint(op.spec, op.c) / 1_048_576.0
    ensures Admits(r, op)
            <==> && (r.live == map[] || op.settings.concurrentModels)
                 && match op.reading
                    case Cuda(_, total, torchAlloc) =>
                      FitsBudget(total, torchAlloc + Pool(r.live), neededMb, op.settings.vramBudgetFraction)
                    case Cpu(total, _, rss) => FitsBudget(total, rss, neededMb, op.settings.vramBudgetFraction)
                    case Unreadable => true
  {
    ExpectedIsFootprint(op.spec, op.c);
    var v := ProbeVram(op.reading, Pool(r.live));
    match op.reading
    case Cuda(_, total, torchAlloc) =>
      MeasuredGate(v, total, torchAlloc + Pool(r.live), neededMb, op.settings.vramBudgetFraction);
    case Cpu(total, _, rss) =>
      MeasuredGate(v, total, rss, neededMb, op.settings.vramBudgetFraction);
    case Unreadable =>
  }

  /** An admitted load stays under the ceiling, together with everything torch has
      allocated, although both measurements truncate. */
  lemma AdmittedFits(r: Resident, op: Op, expectedMb: real, budgetMb: real)
    requires op.Load? && op.reading.Cuda? && op.reading.total >= MIB && Admits(r, op)
    requires expectedMb == ExpectedMb(op.spec, op.c)
    requires budgetMb == BudgetMb(op.reading.total / MIB, op.settings.vramBudgetFraction)
    ensures (op.reading.torchAlloc + Pool(Next(r, op).live)) as real < (budgetMb + 1.0) * MIB as real
  {
    var bytes := (expectedMb * MIB as real).Floor;
    TruncationHidesLessThanOne(Pool(r.live), op.reading.torchAlloc, expectedMb, budgetMb);
    assert Next(r, op).live == r.live[op.c := bytes];
    PoolWith(r.live, op.c, bytes);
  }

  /** No load that fits is refused: with room for one more under the concurrent policy, a
      refusal means that torch's allocation, the pool and the model exceed the budget. */
  lemma RefusedDoesNotFit(r: Resident, op: Op, expectedMb: real, budgetMb: real)
    requires op.Load? && op.reading.Cuda? && (r.live == map[] || op.settings.concurrentModels)
    requires expectedMb == ExpectedMb(op.spec, op.c)
    requires budgetMb == BudgetMb(op.reading.total / MIB, op.settings.vramBudgetFraction)
    requires !Admits(r, op)
    ensures (op.reading.torchAlloc + Pool(r.live)) as real + expectedMb * MIB as real > budgetMb * MIB as real
  {
    var used := op.reading.torchAlloc + Pool(r.live);
    assert (used / MIB) as real + expectedMb > budgetMb;
    assert (used / MIB) * MIB <= used;
    assert (used / MIB) as real * MIB as real <= used as real;
    assert ((used / MIB) as real + expectedMb) * MIB as real > budgetMb * MIB as real;
  }

  lemma StepFits(r: Resident, op: Op, total: nat, fraction: real, ceiling: real)
    requires OnThisCard(op, total, fraction) && total >= MIB
    requires ceiling == Ceiling(total, fraction)
    requires Pool(r.live) as real < ceiling
    ensures Pool(Next(r, op).live) as real < ceiling
  {
    if op.Unload? {
      PoolWith(r.live, op.c, 0);
    } else if Admits(r, op) {
      AdmittedFits(r, op, ExpectedMb(op.spec, op.c), BudgetMb(total / MIB, fraction));
    }
  }

  /** Over any run of loads and unloads on a readable card of at least one mebibyte the
      reservations stay below the budget plus one mebibyte. */
  lemma {:induction false} PoolStaysUnderCeiling(ops: seq<Op>, total: nat, fraction: real)
    requires OnCard(ops, total, fraction) && total >= MIB && fraction >= 0.0
    ensures Pool(After(ops).live) as real < Ceiling(total, fraction)
  {
    if ops == [] {
      ProductNotNegative((total / MIB) as real, fraction);
    } else {
      var before := ops[..|ops| - 1];
      PoolStaysUnderCeiling(before, total, fraction);
      StepFits(After(before), ops[|ops| - 1], total, fraction, Ceiling(total, fraction));
    }
  }

  /** What a model of this many bytes on disk takes in the LLM and diarization slots. */
  lemma BytesOfSix(n: nat, c: Category)
    requires c != Stt
    ensures VramBytes(ModelSpec("", Some(n)), c) == n * 6 / 5
    ensures ExpectedMb(ModelSpec("", Some(n)), c) == n as real * 1.2 / MIB as real
  {
    assert ExpectedMb(ModelSpec("", Some(n)), c) * MIB as real == n as real * 1.2;
    assert (n * 6 / 5) as real <= n as real * 1.2 < (n * 6 / 5) as real + 1.0;
  }

  lemma FirstLoad(first: Op, fraction: real, reading: Reading)
    requires first == Load(Llm, ModelSpec("", Some(873_813)), Settings(true, fraction), reading, "")
    requires reading.Cuda? && reading.torchAlloc == 0
    requires BudgetMb(reading.total / MIB, fraction) >= 1.0
    ensures After([first]).live == map[Llm := MIB - 1]
  {
    BytesOfSix(873_813, Llm);
    assert [first][..0] == [];
    assert ProbeVram(reading, 0).usedMb == 0;
  }

  lemma SecondLoad(r: Resident, second: Op, n: nat)
    requires r.live == map[Llm := MIB - 1]
    requires second.Load? && second.c == Diarize && second.spec == ModelSpec("", Some(n))
            && second.settings.concurrentModels
    requires second.reading.Cuda? && second.reading.torchAlloc == 0
    requires n as real * 1.2 <= BudgetMb(second.reading.total / MIB, second.settings.vramBudgetFraction) * MIB as real
    ensures Pool(Next(r, second).live) == MIB - 1 + n * 6 / 5
  {
    BytesOfSix(n, Diarize);
    var budgetMb := BudgetMb(second.reading.total / MIB, second.settings.vramBudgetFraction);
    assert n as real * 1.2 / MIB as real <= budgetMb;
    assert ProbeVram(second.reading, MIB - 1).usedMb == 0;
    PoolWith(r.live, Diarize, n * 6 / 5);
  }

  /** The mebibyte on top is needed, to within four bytes: on every card with a budget
      of at least a mebibyte two admitted loads come that close to the ceiling. */
  lemma CeilingIsAlmostReached(total: nat, fraction: real) returns (ops: seq<Op>)
    requires BudgetMb(total / MIB, fraction) >= 1.0
    ensures OnCard(ops, total, fraction)
    ensures Pool(After(ops).live) as real > Ceiling(total, fraction) - 4.0
  {
    var settings, card := Settings(true, fraction), Cuda(total, total, 0);
    var budgetMb := BudgetMb(total / MIB, fraction);
    var budget := budgetMb * MIB as real;
    var n: nat := (budget / 1.2).Floor;
    var first := Load(Llm, ModelSpec("", Some(873_813)), settings, card, "");
    var second := Load(Diarize, ModelSpec("", Some(n)), settings, card, "");
    ops := [first, second];
    FirstLoad(first, fraction, card);
    SecondLoad(After([first]), second, n);
    assert ops[..1] == [first];
    assert After(ops) == Next(After([first]), second);
    assert (n * 6 / 5) as real > n as real * 1.2 - 1.0 > budget - 2.2;
    assert (budgetMb + 1.0) * MIB as real == budget + MIB as real;
  }

  /** The condition is exact: where less than one mebibyte is measured the gate is open,
      and no bound of any size holds. */
  lemma OpenGateAdmitsAnything(reading: Reading, bound: nat)
    requires ProbeVram(reading, 0).totalMb == 0
    ensures Pool(After([Load(Llm, ModelSpec("m", Some(bound)), Settings(false, 0.1), reading, "")]).live) >= bound
  {
    var op := Load(Llm, ModelSpec("m", Some(bound)), Settings(false, 0.1), reading, "");
    assert [op][..0] == [];
    assert ExpectedMb(op.spec, Llm) * MIB as real == bound as real * 1.2;
  }

  /** The byte map and the record map always name the same categories, with the same sizes. */
  lemma {:induction false} MapsAgree(ops: seq<Op>)
    ensures After(ops).live.Keys == After(ops).meta.Keys
    ensures forall c | c in After(ops).live ::
              After(ops).meta[c].category == c && After(ops).meta[c].vramBytes == After(ops).live[c]
  {
    if ops != [] {
      MapsAgree(ops[..|ops| - 1]);
    }
  }

  /** With concurrent models off at most one category is resident. */
  lemma {:induction false} AtMostOneResident(ops: seq<Op>)
    requires OneAtATime(ops)
    ensures forall c, d | c in After(ops).live && d in After(ops).live :: c == d
  {
    if ops != [] {
      AtMostOneResident(ops[..|ops| - 1]);
    }
  }

  // ---------------------------------------------------------------- the manager

  datatype LoadError =
    | ConcurrentModelRefused(loadedCategory: Category, requestedCategory: Category)
    | VramBudgetExceeded(category: Category, neededMb: int, availableMb: int)

  class ModelManager {
    var liveVramBytes: map<Category, nat>
    var loadedMeta: map<Category, LoadedModel>
    /** Every call since the manager was made. */
    ghost var ops: seq<Op>

    function State(): Resident
      reads this
    {
      Resident(liveVramBytes, loadedMeta)
    }

    ghost predicate Valid()
      reads this
    {
      State() == After(ops)
    }

    constructor ()
      ensures Valid() && ops == []
    {
      liveVramBytes, loadedMeta, ops := map[], map[], [];
    }

    /** Refuses and changes nothing, or reserves. */
    method LoadModel(c: Category, spec: ModelSpec, settings: Settings, reading: Reading, now: string)
      returns (result: Result<LoadedModel, LoadError>)
      requires Valid()
      modifies this
      ensures Valid() && ops == old(ops) + [Load(c, spec, settings, reading, now)]
      ensures result.Ok? <==> Admits(old(State()), Load(c, spec, settings, reading, now))
      ensures result.Ok? ==>
                && result.value.category == c && result.value.modelId == spec.repoId && result.value.spec == spec
                && result.value.vramBytes == Footprint(spec, c).Floor && result.value.loadedAt == now
                && State() == Resident(old(liveVramBytes)[c := result.value.vramBytes],
                                       old(loadedMeta)[c := result.value])
      ensures result.Err? ==> State() == old(State())
      ensures result.Err? && result.error.ConcurrentModelRefused?
              <==> old(liveVramBytes) != map[] && !settings.concurrentModels
      ensures result.Err? && result.error.ConcurrentModelRefused? ==>
                result.error.loadedCategory in liveVramBytes && result.error.requestedCategory == c
      ensures result.Err? && result.error.VramBudgetExceeded? ==>
                && result.error.category == c
                && result.error.neededMb == (Footprint(spec, c) / 1_048_576.0).Floor
                && 0 <= result.error.availableMb <= result.error.neededMb
      ensures result.Err? && result.error.VramBudgetExceeded? ==>
                result.error.availableMb == RoomMb(ProbeVram(reading, Pool(liveVramBytes)), settings.vramBudgetFraction)
    {
      ghost var op := Load(c, spec, settings, reading, now);
      ghost var before := ops;
      ExpectedIsFootprint(spec, c);
      ops := ops + [op];
      assert ops[..|ops| - 1] == before;
      if liveVramBytes != map[] && !settings.concurrentModels {
        var resident :| resident in liveVramBytes;
        return Err(ConcurrentModelRefused(resident, c));
      }
      var vram := ProbeVram(reading, Pool(liveVramBytes));
      var expectedMb := ExpectedMb(spec, c);
      var budgetMb := BudgetMb(vram.totalMb, settings.vramBudgetFraction);
      if vram.totalMb > 0 && vram.usedMb as real + expectedMb > budgetMb {
        return Err(VramBudgetExceeded(c, expectedMb.Floor, RoomMb(vram, settings.vramBudgetFraction)));
      }
      var loaded := LoadedModel(c, spec.repoId, spec, (expectedMb * MIB as real).Floor, now);
      liveVramBytes := liveVramBytes[c := loaded.vramBytes];
      loadedMeta := loadedMeta[c := loaded];
      result := Ok(loaded);
    }

    method UnloadModel(c: Category)
      requires Valid()
      modifies this
      ensures Valid()
      ensures State() == Released(old(State()), c)
    {
      if c in liveVramBytes {
        assert (ops + [Unload(c)])[..|ops|] == ops;
        liveVramBytes := liveVramBytes - {c};
        loadedMeta := loadedMeta - {c};
        ops := ops + [Unload(c)];
      } else {
        MapsAgree(ops);
        assert liveVramBytes - {c} == liveVramBytes && loadedMeta - {c} == loadedMeta;
      }
    }

    method UnloadAll()
      requires Valid()
      modifies this
      ensures Valid() && State() == Resident(map[], map[])
    {
      var todo := liveVramBytes.Keys;
      while todo != {}
        invariant Valid() && liveVramBytes.Keys <= todo
        decreases todo
      {
        var c :| c in todo;
        UnloadModel(c);
        todo := todo - {c};
      }
      MapsAgree(ops);
      assert liveVramBytes == map[] && loadedMeta == map[];
    }
  }
}
