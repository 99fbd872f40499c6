/**
 The device memory directory: a map from the base address of every managed
 (unified) allocation to its size and the device it was placed on. Lookups are
 by exact key only.
 */
module DeviceMemory {

  /** An address; 0 is the null pointer. */
  type Ptr = nat

  const NULL: Ptr := 0

  /** The value stored per allocation (DeviceMemEntry). */
  datatype DeviceMemEntry = DeviceMemEntry(size: nat, deviceNum: int)

  /** What getEntry answers for an address that is not in the directory. */
  const ABSENT := DeviceMemEntry(0, 0)

  type Directory = map<Ptr, DeviceMemEntry>

  /**
   The device an allocation asked for `deviceNum` is recorded on. The operands
   are non-negative, so C's truncating `%` and Dafny's `%` agree.
   */
  function DeviceFor(deviceNum: int, totalDevices: nat): (d: int)
    requires deviceNum >= 0 && totalDevices > 0
    ensures 0 <= d < totalDevices
    ensures deviceNum < totalDevices ==> d == deviceNum
  {
    deviceNum % totalDevices
  }

  /** std::map::insert: adds the pair unless the key is already present, which keeps its value. */
  function MapInsert(dir: Directory, p: Ptr, e: DeviceMemEntry): (r: Directory)
    ensures r.Keys == dir.Keys + {p}
    ensures forall q :: q in dir ==> r[q] == dir[q]
    ensures p !in dir ==> r[p] == e
  {
    if p in dir then dir else dir[p := e]
  }

  /** std::map::erase by key. */
  function MapErase(dir: Directory, p: Ptr): (r: Directory)
    ensures r.Keys == dir.Keys - {p}
    ensures forall q :: q in r ==> r[q] == dir[q]
  {
    dir - {p}
  }

  /** Inserting a fresh key and erasing it again gives back the directory. */
  lemma InsertEraseRoundTrip(dir: Directory, p: Ptr, e: DeviceMemEntry)
    requires p !in dir
    ensures MapErase(MapInsert(dir, p, e), p) == dir
  {
    assert MapErase(MapInsert(dir, p, e), p).Keys == dir.Keys;
  }

  /** Inserting a key that is already present changes nothing. */
  lemma InsertPresentKeepsEntry(dir: Directory, p: Ptr, e: DeviceMemEntry)
    requires p in dir
    ensures MapInsert(dir, p, e) == dir
  {
  }

  class DeviceMemManager {
    /** Address of every outstanding allocation -> its entry (_directory). */
    var directory: Directory
    /** The number of devices (CUDAFunctions::getDeviceCount()). */
    const totalDevices: nat

    /** Every entry is a real allocation: non-null key, positive size, a device in range. */
    ghost predicate Valid()
      reads this
    {
      NULL !in directory &&
      forall p :: p in directory ==> directory[p].size > 0 && 0 <= directory[p].deviceNum < totalDevices
    }

    constructor (totalDevices: nat)
      ensures Valid()
      ensures this.totalDevices == totalDevices && directory == map[]
    {
      this.totalDevices := totalDevices;
      directory := map[];
    }

    /** initialize(): nothing to do. */
    method Initialize()
      requires Valid()
      ensures Valid()
      ensures unchanged(this)
    {
    }

    /** shutdown(): nothing to do. */
    method Shutdown()
      requires Valid()
      ensures Valid()
      ensures unchanged(this)
    {
    }

    /**
     Registers an allocation of `size` bytes asked for on device `deviceNum`.
     `managed` is the non-null address the managed allocator handed out for it
     (an allocation failure aborts the process before this point).
     */
    method Alloc(size: nat, deviceNum: int, managed: Ptr) returns (ret: Ptr)
      requires Valid()
      requires size > 0 && deviceNum >= 0 && totalDevices > 0
      requires managed != NULL
      modifies this
      ensures Valid()
      ensures ret == managed && Contains(ret)
      ensures directory == MapInsert(old(directory), ret, DeviceMemEntry(size, DeviceFor(deviceNum, totalDevices)))
      ensures ret !in old(directory) ==> GetEntry(ret) == DeviceMemEntry(size, DeviceFor(deviceNum, totalDevices))
      ensures ret in old(directory) ==> directory == old(directory)
    {
      var device := DeviceFor(deviceNum, totalDevices);
      ret := managed;
      var entry := DeviceMemEntry(size, device);
      directory := MapInsert(directory, ret, entry);
    }

    /** Forgets the allocation at `ptr`, which must be registered. */
    method Free(ptr: Ptr)
      requires Valid()
      requires ptr != NULL && Contains(ptr)
      modifies this
      ensures Valid()
      ensures directory == MapErase(old(directory), ptr)
      ensures !Contains(ptr) && GetEntry(ptr) == ABSENT
    {
      directory := MapErase(directory, ptr);
    }

    /** Whether `ptr` is the address of a registered allocation. */
    function Contains(ptr: Ptr): bool
      reads this
      requires ptr != NULL
    {
      ptr in directory
    }

    /**
     The entry of `ptr`, or ABSENT ({0, 0}) when it is not registered. Since every
     stored size is positive, a zero size tells the two cases apart.
     */
    function GetEntry(ptr: Ptr): (e: DeviceMemEntry)
      reads this
      requires Valid()
      requires ptr != NULL
      ensures Contains(ptr) ==> e == directory[ptr]
      ensures e.size > 0 <==> Contains(ptr)
      ensures !Contains(ptr) <==> e == ABSENT
      ensures 0 <= e.deviceNum && (Contains(ptr) ==> e.deviceNum < totalDevices)
    {
      if ptr in directory then directory[ptr] else ABSENT
    }

    /** The device `ptr` was allocated on; 0 for an unregistered address. */
    function GetDataLocation(ptr: Ptr): (d: int)
      reads this
      requires Valid()
      requires ptr != NULL
      ensures d == GetEntry(ptr).deviceNum
      ensures Contains(ptr) ==> 0 <= d < totalDevices
      ensures !Contains(ptr) ==> d == 0
    {
      GetEntry(ptr).deviceNum
    }
  }

  /** Allocating and then freeing the returned address restores the directory. */
  method AllocThenFree(m: DeviceMemManager, size: nat, deviceNum: int, managed: Ptr)
    requires m.Valid()
    requires size > 0 && deviceNum >= 0 && m.totalDevices > 0
    requires managed != NULL && !m.Contains(managed)
    modifies m
    ensures m.Valid() && m.directory == old(m.directory)
  {
    ghost var before := m.directory;
    var p := m.Alloc(size, deviceNum, managed);
    m.Free(p);
    InsertEraseRoundTrip(before, managed, DeviceMemEntry(size, DeviceFor(deviceNum, m.totalDevices)));
  }
}
