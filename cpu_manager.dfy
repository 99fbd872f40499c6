/**
 The idle-CPU tracker of the thread executor: one bit per CPU, indexed by
 system CPU id, set while the CPU is idle and available for new work. The
 "take" operations scan the bits in index order, clear the first one whose CPU
 qualifies and hand that CPU out.
 */
module CPUManagement {
  import opened Wrappers

  /** A CPU as the tracker sees it: its system id, its NUMA node and the caches it reaches. */
  datatype CPU = CPU(systemCPUId: nat, numaNodeId: nat, caches: set<int>)

  /** The per-CPU memory place for `cache` exists (getMemoryPlace(cache) is not null). */
  predicate HasMemoryPlace(cpu: CPU, cache: int) {
    cache in cpu.caches
  }

  /** What a take asks of the CPU it hands out. */
  datatype Locality = AnyCPU | CacheLocal(cache: int) | NUMALocal(numaNodeId: nat)

  predicate Qualifies(cpu: CPU, wanted: Locality) {
    match wanted
    case AnyCPU => true
    case CacheLocal(cache) => HasMemoryPlace(cpu, cache)
    case NUMALocal(node) => cpu.numaNodeId == node
  }

  /** The CPU list is indexed by system CPU id. */
  predicate IndexedBySystemId(cpus: seq<CPU>) {
    forall i :: 0 <= i < |cpus| ==> cpus[i].systemCPUId == i
  }

  /**
   The lowest set index at or after `from`, or None (boost's npos).
   find_first() is FindFrom(bits, 0) and find_next(pos) is FindFrom(bits, pos + 1).
   */
  function FindFrom(bits: seq<bool>, from: nat): (r: Option<nat>)
    ensures r.Some? ==> from <= r.value < |bits| && bits[r.value]
    ensures r.Some? ==> forall j :: from <= j < r.value ==> !bits[j]
    ensures r.None? <==> forall j :: from <= j < |bits| ==> !bits[j]
    decreases |bits| - from
  {
    if from >= |bits| then None
    else if bits[from] then Some(from)
    else FindFrom(bits, from + 1)
  }

  /** The set of idle CPU ids. */
  function IdleSet(bits: seq<bool>): set<nat> {
    set i: nat | i < |bits| && bits[i]
  }

  /** `i` is the lowest-indexed idle CPU that qualifies. */
  predicate IsLowestIdle(bits: seq<bool>, cpus: seq<CPU>, wanted: Locality, i: nat)
    requires |bits| == |cpus|
  {
    i < |bits| && bits[i] && Qualifies(cpus[i], wanted) &&
    forall j :: 0 <= j < i && bits[j] ==> !Qualifies(cpus[j], wanted)
  }

  /** No idle CPU qualifies. */
  predicate NoIdleQualifies(bits: seq<bool>, cpus: seq<CPU>, wanted: Locality)
    requires |bits| == |cpus|
  {
    forall j :: 0 <= j < |bits| && bits[j] ==> !Qualifies(cpus[j], wanted)
  }

  /**
   The contract every take keeps: it hands out the lowest-indexed idle CPU that
   qualifies and clears exactly its bit, or hands out nothing, leaving the bits
   as they were, exactly when no idle CPU qualifies.
   */
  predicate TakeOutcome(before: seq<bool>, after: seq<bool>, cpus: seq<CPU>, wanted: Locality, cpu: Option<CPU>)
    requires |before| == |cpus|
  {
    match cpu
    case Some(c) =>
      c.systemCPUId < |cpus| && c == cpus[c.systemCPUId] &&
      IsLowestIdle(before, cpus, wanted, c.systemCPUId) &&
      after == before[c.systemCPUId := false]
    case None =>
      NoIdleQualifies(before, cpus, wanted) && after == before
  }

  /** Clearing an idle bit removes exactly that CPU from the idle set. */
  lemma IdleSetClear(bits: seq<bool>, i: nat)
    requires i < |bits| && bits[i]
    ensures IdleSet(bits[i := false]) == IdleSet(bits) - {i}
    ensures |IdleSet(bits[i := false])| == |IdleSet(bits)| - 1
  {
    assert IdleSet(bits[i := false]) == IdleSet(bits) - {i};
  }

  /** Setting a clear bit adds exactly that CPU to the idle set. */
  lemma IdleSetMark(bits: seq<bool>, i: nat)
    requires i < |bits| && !bits[i]
    ensures IdleSet(bits[i := true]) == IdleSet(bits) + {i}
    ensures |IdleSet(bits[i := true])| == |IdleSet(bits)| + 1
  {
    assert IdleSet(bits[i := true]) == IdleSet(bits) + {i};
  }

  /** At most one CPU is the lowest qualifying idle one. */
  lemma LowestIdleUnique(bits: seq<bool>, cpus: seq<CPU>, wanted: Locality, i: nat, k: nat)
    requires |bits| == |cpus|
    requires IsLowestIdle(bits, cpus, wanted, i) && IsLowestIdle(bits, cpus, wanted, k)
    ensures i == k
  {
  }

  /** find_first() finds exactly the lowest idle CPU, and npos exactly when none is idle. */
  lemma FindFirstIsLowestIdle(bits: seq<bool>, cpus: seq<CPU>)
    requires |bits| == |cpus|
    ensures FindFrom(bits, 0).Some? ==> IsLowestIdle(bits, cpus, AnyCPU, FindFrom(bits, 0).value)
    ensures FindFrom(bits, 0).None? <==> NoIdleQualifies(bits, cpus, AnyCPU)
  {
  }

  /** The CPUs that calling getIdleCPU until it returns null hands out, in order. */
  ghost function DrainIdle(bits: seq<bool>): seq<nat>
    decreases |IdleSet(bits)|
  {
    match FindFrom(bits, 0)
    case None => []
    case Some(i) =>
      IdleSetClear(bits, i);
      [i] + DrainIdle(bits[i := false])
  }

  /**
   Taking idle CPUs until none is left hands out exactly the idle set, each CPU
   once and in ascending order of system id.
   */
  lemma {:induction false} DrainIdleIsIdleSet(bits: seq<bool>)
    ensures forall k :: 0 <= k < |DrainIdle(bits)| ==> DrainIdle(bits)[k] in IdleSet(bits)
    ensures forall i :: i in IdleSet(bits) ==> i in DrainIdle(bits)
    ensures forall k, m :: 0 <= k < m < |DrainIdle(bits)| ==> DrainIdle(bits)[k] < DrainIdle(bits)[m]
    decreases |IdleSet(bits)|
  {
    match FindFrom(bits, 0)
    case None =>
    case Some(i) =>
      var rest := bits[i := false];
      IdleSetClear(bits, i);
      DrainIdleIsIdleSet(rest);
      var taken := DrainIdle(bits);
      assert taken == [i] + DrainIdle(rest);
      forall k | 0 <= k < |DrainIdle(rest)|
        ensures i < DrainIdle(rest)[k]
      {
        assert DrainIdle(rest)[k] in IdleSet(bits) - {i};
      }
  }

  class CPUManager {
    /** Per-CPU data indexed by system CPU id (_cpus). */
    const cpus: seq<CPU>
    /** One bit per CPU, set while the CPU is idle (_idleCPUs). */
    var idleCPUs: seq<bool>
    /** The CPUs a take handed out that have not become idle again since. */
    ghost var handedOut: set<nat>

    ghost predicate Valid()
      reads this
    {
      IndexedBySystemId(cpus) && |idleCPUs| == |cpus| &&
      forall i :: i in handedOut ==> i < |idleCPUs| && !idleCPUs[i]
    }

    /** The tracker after initialisation: one clear bit per CPU. */
    constructor (cpus: seq<CPU>)
      requires IndexedBySystemId(cpus)
      ensures Valid()
      ensures this.cpus == cpus && IdleSet(idleCPUs) == {} && handedOut == {}
    {
      this.cpus := cpus;
      idleCPUs := seq(|cpus|, _ => false);
      handedOut := {};
      new;
      assert IdleSet(idleCPUs) == {};
    }

    /** The CPU with system id `systemCPUId`. */
    function GetCPU(systemCPUId: nat): (cpu: CPU)
      reads this
      requires Valid()
      requires systemCPUId < |cpus|
      ensures cpu.systemCPUId == systemCPUId && cpu in cpus
    {
      cpus[systemCPUId]
    }

    /** Marks `cpu` idle; its bit must be clear beforehand. */
    method CPUBecomesIdle(cpu: CPU)
      requires Valid()
      requires cpu.systemCPUId < |idleCPUs| && !idleCPUs[cpu.systemCPUId]
      modifies this
      ensures Valid()
      ensures idleCPUs == old(idleCPUs)[cpu.systemCPUId := true]
      ensures IdleSet(idleCPUs) == IdleSet(old(idleCPUs)) + {cpu.systemCPUId}
      ensures |IdleSet(idleCPUs)| == |IdleSet(old(idleCPUs))| + 1
      ensures handedOut == old(handedOut) - {cpu.systemCPUId}
    {
      IdleSetMark(idleCPUs, cpu.systemCPUId);
      idleCPUs := idleCPUs[cpu.systemCPUId := true];
      handedOut := handedOut - {cpu.systemCPUId};
    }

    /** Takes the lowest-indexed idle CPU, or returns None when none is idle. */
    method GetIdleCPU() returns (cpu: Option<CPU>)
      requires Valid()
      modifies this
      ensures Valid()
      ensures TakeOutcome(old(idleCPUs), idleCPUs, cpus, AnyCPU, cpu)
      ensures cpu.Some? ==> cpu.value.systemCPUId !in old(handedOut)
      ensures cpu.Some? ==> handedOut == old(handedOut) + {cpu.value.systemCPUId}
      ensures cpu.Some? ==> |IdleSet(idleCPUs)| == |IdleSet(old(idleCPUs))| - 1
      ensures cpu.None? ==> handedOut == old(handedOut)
    {
      FindFirstIsLowestIdle(idleCPUs, cpus);
      var idleCPU := FindFrom(idleCPUs, 0);
      if idleCPU.Some? {
        var i := idleCPU.value;
        IdleSetClear(idleCPUs, i);
        idleCPUs := idleCPUs[i := false];
        handedOut := handedOut + {i};
        cpu := Some(cpus[i]);
      } else {
        cpu := None;
      }
    }

    /** Takes the lowest-indexed idle CPU that reaches `cache`, or returns None when none does. */
    method GetCacheLocalityIdleCPU(cache: int) returns (cpu: Option<CPU>)
      requires Valid()
      modifies this
      ensures Valid()
      ensures TakeOutcome(old(idleCPUs), idleCPUs, cpus, CacheLocal(cache), cpu)
      ensures cpu.Some? ==> cpu.value.systemCPUId !in old(handedOut)
      ensures cpu.Some? ==> handedOut == old(handedOut) + {cpu.value.systemCPUId}
      ensures cpu.Some? ==> |IdleSet(idleCPUs)| == |IdleSet(old(idleCPUs))| - 1
      ensures cpu.None? ==> handedOut == old(handedOut)
    {
      var idleCPU := FindFrom(idleCPUs, 0);
      while idleCPU.Some?
        invariant idleCPUs == old(idleCPUs) && handedOut == old(handedOut)
        invariant idleCPU.Some? ==> idleCPU.value < |idleCPUs| && idleCPUs[idleCPU.value]
        invariant forall j :: 0 <= j < |idleCPUs| && idleCPUs[j] && (idleCPU.None? || j < idleCPU.value) ==>
                    !HasMemoryPlace(cpus[j], cache)
        decreases if idleCPU.Some? then |idleCPUs| - idleCPU.value else 0
      {
        var i := idleCPU.value;
        if HasMemoryPlace(cpus[i], cache) {
          IdleSetClear(idleCPUs, i);
          idleCPUs := idleCPUs[i := false];
          handedOut := handedOut + {i};
          cpu := Some(cpus[i]);
          return;
        }
        idleCPU := FindFrom(idleCPUs, i + 1);
      }
      cpu := None;
    }

    /** Takes the lowest-indexed idle CPU of NUMA node `numaNodeId`, or returns None when none is. */
    method GetNUMALocalityIdleCPU(numaNodeId: nat) returns (cpu: Option<CPU>)
      requires Valid()
      modifies this
      ensures Valid()
      ensures TakeOutcome(old(idleCPUs), idleCPUs, cpus, NUMALocal(numaNodeId), cpu)
      ensures cpu.Some? ==> cpu.value.systemCPUId !in old(handedOut)
      ensures cpu.Some? ==> handedOut == old(handedOut) + {cpu.value.systemCPUId}
      ensures cpu.Some? ==> |IdleSet(idleCPUs)| == |IdleSet(old(idleCPUs))| - 1
      ensures cpu.None? ==> handedOut == old(handedOut)
    {
      var idleCPU := FindFrom(idleCPUs, 0);
      while idleCPU.Some?
        invariant idleCPUs == old(idleCPUs) && handedOut == old(handedOut)
        invariant idleCPU.Some? ==> idleCPU.value < |idleCPUs| && idleCPUs[idleCPU.value]
        invariant forall j :: 0 <= j < |idleCPUs| && idleCPUs[j] && (idleCPU.None? || j < idleCPU.value) ==>
                    cpus[j].numaNodeId != numaNodeId
        decreases if idleCPU.Some? then |idleCPUs| - idleCPU.value else 0
      {
        var i := idleCPU.value;
        if cpus[i].numaNodeId == numaNodeId {
          IdleSetClear(idleCPUs, i);
          idleCPUs := idleCPUs[i := false];
          handedOut := handedOut + {i};
          cpu := Some(cpus[i]);
          return;
        }
        idleCPU := FindFrom(idleCPUs, i + 1);
      }
      cpu := None;
    }
  }
}
