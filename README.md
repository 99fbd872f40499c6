# Nanos6 core state logic, modelled in Dafny

This project models three small, sequential pieces of state logic from the
Nanos6 task runtime (the OpenACC fork) and proves properties about them.

- **Idle-CPU tracker** (`CPUManagement`, file `cpu_manager.dfy`). The
  `CPUManager` keeps one idle bit per CPU (`_idleCPUs`), indexed by system CPU
  id. `CPUBecomesIdle` sets a bit that must be clear. The three take
  operations clear the first set bit whose CPU qualifies and hand that CPU
  out: any CPU, a CPU that reaches a given cache, or a CPU on a given NUMA
  node. The bits are a `seq<bool>` field. The CPU list is a `const` sequence
  of `CPU` records: a system id, a NUMA node id and the set of caches the CPU
  reaches. boost's `find_first` / `find_next` is the function `FindFrom`. The
  two locality scans are `while` loops, as in the source. Their invariant
  says that every idle CPU below the scan position fails the test. A ghost
  set `handedOut` holds the CPUs that a take handed out and that have not
  become idle since. The class invariant keeps it disjoint from the idle
  bits. So every take returns a CPU that is not already handed out, which
  means no CPU is dispatched twice without becoming idle in between.
- **Device memory directory** (`DeviceMemory`, file `device_mem_manager.dfy`).
  The `DeviceMemManager` keeps a `map` from the address of each managed
  allocation to its `{size, deviceNum}` entry. A map has exactly one entry per
  key. `Alloc` records `deviceNum % totalDevices` and inserts with
  `std::map::insert` semantics (`MapInsert`): a key that is already present
  keeps its old entry. `Free` erases a key that must be present. `Contains` is
  the exact key test. `GetEntry` returns the entry, or `{0, 0}` when the key
  is absent, and `GetDataLocation` returns the entry's device. The class
  invariant says that every entry has a positive size and a device below
  `totalDevices`. That is why a zero size in `GetEntry`'s answer means
  exactly "not registered".
- **TAP producer** (`TestAnyProtocol`, file `tap_producer.dfy`). The test
  suite's `TestAnyProtocolProducer` writes Test Anything Protocol (version 13)
  lines. Standard output is modelled as a `seq<string>` of lines written, and
  `std::exit` as an `exitStatus` field. Each line format is a function.
  A small TAP reader sits beside them: `ReadTestPoint` and `ReadPlan` recover
  what a consumer reads from a line. For text arguments without a newline
  (see "Left out"), the model proves that every test line reads back with its
  status and number. It also proves that plan, bail-out and diagnostic lines
  are never read as test lines. A class invariant says
  that the test lines written since the latest `Begin` are numbered 1, 2, 3,
  and so on. Before any `Begin` they are numbered from 0.
  Decimal printing of integers (`std::ostream << int`) is the `Decimal`
  module (file `decimal.dfy`). It has a parser and a proved round trip.

`wrappers.dfy` holds the `Option` type. A null pointer result is `None`.

Facts about the code that shape the model:
- A missing directory entry reads as `{0, 0}`.
- Directory lookup is by exact key only. There is no containment
  ("region") lookup and no device-affinity scoring.
- A CPU qualifies for a cache when it has a memory place for that cache.

## Model

| member | source | states |
|---|---|---|
| `CPUManagement.FindFrom` | src/executors/threads/CPUManager.hpp:126-136 | find_first/find_next: the result is the lowest set bit at or after the start position. It is npos (None) exactly when no bit from there on is set. |
| `CPUManagement.IdleSetMark` | src/executors/threads/CPUManager.hpp:106 | Setting a clear bit adds exactly that CPU to the idle set, so the idle count grows by one. |
| `CPUManagement.IdleSetClear` | src/executors/threads/CPUManager.hpp:115 | Clearing a set bit removes exactly that CPU from the idle set, so the idle count drops by one. |
| `CPUManagement.FindFirstIsLowestIdle` | src/executors/threads/CPUManager.hpp:113-119 | find_first returns the lowest idle CPU. It returns npos exactly when no CPU is idle. |
| `CPUManagement.LowestIdleUnique` | src/executors/threads/CPUManager.hpp:123-140 | At most one index can be the lowest idle CPU that qualifies, so a take's answer is fully determined. |
| `CPUManagement.DrainIdleIsIdleSet` | src/executors/threads/CPUManager.hpp:110-120 | Calling getIdleCPU until it returns null hands out exactly the CPUs that were idle, each once, in ascending order of system id. |
| `CPUManagement.CPUManager.GetCPU` | src/executors/threads/CPUManager.hpp:72-76 | Requires `systemCPUId < \|cpus\|`. Returns the listed CPU whose system id is `systemCPUId`. |
| `CPUManagement.CPUManager.CPUBecomesIdle` | src/executors/threads/CPUManager.hpp:100-107 | Requires the CPU's bit to be clear. Afterwards that bit is set and every other bit is unchanged. The idle count grows by one, and the CPU is no longer counted as handed out. |
| `CPUManagement.CPUManager.GetIdleCPU` | src/executors/threads/CPUManager.hpp:110-120 | Returns the lowest-indexed idle CPU and clears only its bit. It returns None, with the bits unchanged, exactly when no CPU is idle. A returned CPU was not already handed out, that is, taken by an earlier take and not made idle again by CPUBecomesIdle since. It is handed out from then on, until CPUBecomesIdle, and the idle count drops by one. |
| `CPUManagement.CPUManager.GetCacheLocalityIdleCPU` | src/executors/threads/CPUManager.hpp:123-140 | Returns the lowest-indexed idle CPU that has a memory place for `cache`, and clears only its bit. It returns None, with the bits unchanged, exactly when no idle CPU qualifies. A returned CPU was not already handed out, that is, taken by an earlier take and not made idle again by CPUBecomesIdle since. It is handed out from then on, until CPUBecomesIdle. The scan's invariant: every idle CPU below the scan position fails the test, and the bits are untouched until the match. |
| `CPUManagement.CPUManager.GetNUMALocalityIdleCPU` | src/executors/threads/CPUManager.hpp:142-159 | Returns the lowest-indexed idle CPU on NUMA node `numaNodeId`, and clears only its bit. It returns None, with the bits unchanged, exactly when no idle CPU is on that node. A returned CPU was not already handed out, that is, taken by an earlier take and not made idle again by CPUBecomesIdle since. It is handed out from then on, until CPUBecomesIdle. The scan's invariant matches the cache scan's. |
| `DeviceMemory.DeviceFor` | src/hardware/device/DeviceMemManager.cpp:16-21 | Requires `deviceNum >= 0` and `totalDevices > 0`. The recorded device is below `totalDevices`, and a device number already in range is kept. |
| `DeviceMemory.MapInsert` | src/hardware/device/DeviceMemManager.cpp:30 | std::map::insert: the key set gains the new key and every existing entry is kept. The new entry is stored only when the key was absent. |
| `DeviceMemory.MapErase` | src/hardware/device/DeviceMemManager.cpp:41 | std::map::erase: the key set loses exactly that key and every other entry is unchanged. |
| `DeviceMemory.InsertPresentKeepsEntry` | src/hardware/device/DeviceMemManager.cpp:30 | Inserting a key that is already present leaves the directory unchanged. |
| `DeviceMemory.InsertEraseRoundTrip` | src/hardware/device/DeviceMemManager.cpp:14-44 | Inserting an absent key and then erasing it gives back the original directory. |
| `DeviceMemory.DeviceMemManager.constructor` | src/hardware/device/DeviceMemManager.cpp:10-12 | The directory starts empty, and totalDevices is the device count it is given. |
| `DeviceMemory.DeviceMemManager.Initialize` | src/hardware/device/DeviceMemManager.hpp:30-32 | Leaves the directory unchanged. |
| `DeviceMemory.DeviceMemManager.Shutdown` | src/hardware/device/DeviceMemManager.hpp:34-36 | Leaves the directory unchanged. |
| `DeviceMemory.DeviceMemManager.Alloc` | src/hardware/device/DeviceMemManager.cpp:14-34 | Requires `size > 0`, `deviceNum >= 0` and `totalDevices > 0`. Returns the allocator's address, which `Contains` afterwards. The directory becomes the insert of `{size, deviceNum % totalDevices}`. For a previously unregistered address, GetEntry then gives that entry. An address already present keeps its old entry, and all other entries are unchanged. The invariant is kept. |
| `DeviceMemory.DeviceMemManager.Free` | src/hardware/device/DeviceMemManager.cpp:36-44 | Requires that `ptr` is registered. Afterwards `ptr` is absent, GetEntry gives `{0, 0}` for it, and every other entry is unchanged. |
| `DeviceMemory.DeviceMemManager.Contains` | src/hardware/device/DeviceMemManager.cpp:46-55 | Requires a non-null pointer and only reads the directory. It is the exact-key test. Its meaning comes from the contracts that use it: Alloc makes it true for the returned address, Free makes it false for the freed address, and it is false exactly when GetEntry gives `{0, 0}`. |
| `DeviceMemory.DeviceMemManager.GetEntry` | src/hardware/device/DeviceMemManager.cpp:46-71 | Requires a non-null pointer and only reads the directory. Returns the stored entry when the pointer is registered. Contains(ptr) holds exactly when the answer is not `{0, 0}`, and exactly when its size is positive. The device is in range. |
| `DeviceMemory.DeviceMemManager.GetDataLocation` | src/hardware/device/DeviceMemManager.hpp:52-55 | Equals GetEntry(ptr).deviceNum. It is below totalDevices for a registered pointer and 0 for any other. |
| `DeviceMemory.AllocThenFree` | src/hardware/device/DeviceMemManager.cpp:14-44 | alloc(size, deviceNum) returning a fresh p, then free(p), leaves the directory as it was before the alloc. |
| `Decimal.NatToString` | tests/infrastructure/TestAnyProtocolProducer.hpp:22 | The printed decimal of a number is non-empty, all digits, and has no leading zero. |
| `Decimal.ParseIntToString` | tests/infrastructure/TestAnyProtocolProducer.hpp:72 | Reading back the printed text of any int, negative ones included, gives that int. A negative `_testCount` from `registerNewTests` with a negative count therefore prints as `-` and its magnitude. |
| `TestAnyProtocol.NegativePlanIsUnreadable` | tests/infrastructure/TestAnyProtocolProducer.hpp:69-75 | A negative test count, which `registerNewTests` allows, makes `begin` print `1..-k`, with k its magnitude. A TAP reader does not read that line as a plan count. |
| `Decimal.ParseNatToString` | tests/infrastructure/TestAnyProtocolProducer.hpp:22 | Reading the printed decimal of a number gives back that number. |
| `Decimal.NatToStringInjective` | tests/infrastructure/TestAnyProtocolProducer.hpp:22 | Distinct test numbers are printed differently. |
| `TestAnyProtocol.OutcomeTail` | tests/infrastructure/TestAnyProtocolProducer.hpp:23-31 | What follows the test number is empty or starts with a space. So the directive, component and detail never run into the number. |
| `TestAnyProtocol.OutcomeLineReads` | tests/infrastructure/TestAnyProtocolProducer.hpp:20-34 | A TAP reader reads every `ok` / `not ok` line back with its status ("ok" or not) and its exact test number, whatever the directive, component and detail. |
| `TestAnyProtocol.PlanLineReads` | tests/infrastructure/TestAnyProtocolProducer.hpp:71-73 | A TAP reader reads the plan line `1..N` back as the count N. |
| `TestAnyProtocol.OtherLinesAreNotTestPoints` | tests/infrastructure/TestAnyProtocolProducer.hpp:119-168 | Plan, `Bail out!` and `#` diagnostic lines are never read as test lines. |
| `TestAnyProtocol.NumberedRunExtend` | tests/infrastructure/TestAnyProtocolProducer.hpp:22-33 | Appending a test line that carries the next number keeps the consecutive numbering of a run of output. |
| `TestAnyProtocol.TestAnyProtocolProducer.constructor` | tests/infrastructure/TestAnyProtocolProducer.hpp:37-40 | A fresh producer has testCount 0, currentTest 0, no failure mark, an empty component and no output. |
| `TestAnyProtocol.TestAnyProtocolProducer.RegisterNewTests` | tests/infrastructure/TestAnyProtocolProducer.hpp:46-49 | Adds `count` to testCount (the default is 1) and changes nothing else. |
| `TestAnyProtocol.TestAnyProtocolProducer.SetComponent` | tests/infrastructure/TestAnyProtocolProducer.hpp:54-65 | The component becomes the demangled name when demangling succeeds, and the raw name otherwise. |
| `TestAnyProtocol.TestAnyProtocolProducer.Begin` | tests/infrastructure/TestAnyProtocolProducer.hpp:69-75 | Writes the plan line `1..testCount` only when testCount is not 0, then sets currentTest to 1. From then on the k-th test line carries number k. |
| `TestAnyProtocol.TestAnyProtocolProducer.End` | tests/infrastructure/TestAnyProtocolProducer.hpp:78-80 | Changes nothing. |
| `TestAnyProtocol.TestAnyProtocolProducer.EmitOutcome` | tests/infrastructure/TestAnyProtocolProducer.hpp:20-34 | Appends exactly one element to the output, which is one line when the arguments hold no newline. That element is the outcome, a space and currentTest, then `" # " + special`, `" " + component + ":"` and `" " + detail`, each only when non-empty. Then increments currentTest. The line reads back with that status and number, and the numbering stays consecutive. |
| `TestAnyProtocol.TestAnyProtocolProducer.Success` | tests/infrastructure/TestAnyProtocolProducer.hpp:86-89 | Writes an `ok` line for the current test and advances the number. The failure mark is untouched. |
| `TestAnyProtocol.TestAnyProtocolProducer.Failure` | tests/infrastructure/TestAnyProtocolProducer.hpp:94-98 | Writes a `not ok` line for the current test, advances the number and sets the failure mark. |
| `TestAnyProtocol.TestAnyProtocolProducer.Todo` | tests/infrastructure/TestAnyProtocolProducer.hpp:103-106 | Writes a `not ok` line with the `TODO` directive and advances the number. The failure mark is untouched. |
| `TestAnyProtocol.TestAnyProtocolProducer.Skip` | tests/infrastructure/TestAnyProtocolProducer.hpp:111-114 | Writes an `ok` line with the `SKIP` directive and advances the number. The failure mark is untouched. |
| `TestAnyProtocol.TestAnyProtocolProducer.BailOut` | tests/infrastructure/TestAnyProtocolProducer.hpp:119-126 | Writes `Bail out!`, followed by `" " + detail` when the detail is non-empty. currentTest and the failure mark are unchanged. |
| `TestAnyProtocol.TestAnyProtocolProducer.Evaluate` | tests/infrastructure/TestAnyProtocolProducer.hpp:133-140 | Acts as Success when the condition holds and as Failure otherwise. The failure mark becomes its old value or the negated condition. |
| `TestAnyProtocol.TestAnyProtocolProducer.BailOutAndExitIfAnyFailed` | tests/infrastructure/TestAnyProtocolProducer.hpp:144-150 | When the failure mark is set, writes `Bail out! to avoid further errors` and exits with status 1. Otherwise it changes nothing. |
| `TestAnyProtocol.TestAnyProtocolProducer.ClearFailureMark` | tests/infrastructure/TestAnyProtocolProducer.hpp:159-162 | Clears the failure mark and changes nothing else. Earlier lines stay in the output. |
| `TestAnyProtocol.TestAnyProtocolProducer.EmitDiagnostic` | tests/infrastructure/TestAnyProtocolProducer.hpp:165-168 | Writes `"# " + diagnostic` and changes nothing else. |

## Left out

- Locking: `SpinLock`, `RWSpinLock` and `std::lock_guard`. Every operation is modelled as atomic and sequential. So is the read in `getEntry`, which uses the map iterator after the read lock is released; that is a concurrency issue outside a sequential model.
- Device calls: `CUDAFunctions::mallocManaged`, `CUDAFunctions::free` and `getDeviceCount`. These are foreign calls.
  - The address that `mallocManaged` returns is `Alloc`'s parameter `managed` and is non-null. A failed allocation aborts the process inside the device layer.
  - Releasing device memory in `free` has no effect on the directory, so it is not modelled.
  - The device count is the constructor's parameter `totalDevices`.
- `abi::__cxa_demangle` is a foreign call. Its result is `SetComponent`'s parameter `demangled`.
- `std::exit(1)` sets `exitStatus` to 1. Because the process is gone afterwards, every producer operation requires that no exit happened.
- Integer widths: `int`, `size_t` and the `(int)totalDevices` cast are unbounded in the model. Overflow of `_testCount` and `_currentTest`, and device counts beyond `int`, are not modelled.
- CPU list: `_cpus` may hold null slots for CPUs outside the process mask. In the model every slot holds a CPU whose system id is its index. The other accessors are not modelled: `getTotalCPUs`, `hasFinishedInitialization`, `getProcessCPUMaskReference` and `getCPUListReference` (the latter is the field `cpus` itself). `preinitialize` and `initialize` are in CPUManager.cpp, which is not part of this model; the constructor stands in for them with every bit clear.
- The CPU record holds only what the tracker reads: the system id, the NUMA node and the reachable caches. It leaves out the affinity mask, thread attributes and the bound worker.
- Newlines inside text arguments are not modelled. The directive (`special`), the component, the detail and the diagnostic are assumed to hold no `'\n'`. The source accepts such strings, and `emitDiagnostic("x\nok 7")` would then write a second line that a TAP consumer counts as test 7. Each output element is one call's text. So the read-back, "never read as test lines" and consecutive-numbering results describe the real output only for newline-free arguments. No `requires` excludes such arguments, because the source's callers may pass them.
- `hasFailed()` has no member of its own: callers read the field `hasFailed`.
- EmitOutcome: requires `outcome` to be "ok" or "not ok". These are the only values its callers pass.
- The ready queues, the unsynchronized, device and hierarchical schedulers, `canBeCollapsed`, region-mode lookup and device-affinity scoring are not modelled. None of them has code among the files modelled here.
