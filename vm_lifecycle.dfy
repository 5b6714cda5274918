/** Bring-up and tear-down of the VMM in HyperPlatform/HyperPlatform/vm.cpp:
    the shared block (MSR bitmap and shared hook data, reference counted by
    the processors that use it), the per-processor block with its VMM
    stack, VMCS and VMXON regions, EPT and hook data, the goto-based
    unwinding of a failed bring-up and the release of a processor's
    block.

    Pool memory is a set of live objects owned by the kernel: an allocation
    either fails (an input) or adds a fresh object, and a free requires the
    object to be live, so a double free or a free of something never
    allocated cannot verify. VMX instructions are inputs too: whether
    VMXON, VMCLEAR/VMPTRLD, each VMCS write and VMLAUNCH succeed. */
module VmLifecycle {
  import opened Base
  import opened VmBits
  import MsrBitmap

  // ---------------------------------------------------------------------
  // Constants

  /** KERNEL_STACK_SIZE on x64, and the VMM stack as 64-bit words. */
  const KernelStackSize: nat := 0x6000
  const StackWords: nat := KernelStackSize / 8
  const MaxUlongPtr: bv64 := 0xFFFF_FFFF_FFFF_FFFF

  // ---------------------------------------------------------------------
  // State

  /** The allocation a nullable pointer refers to, if any. */
  ghost function Opt(o: object?): set<object>
  {
    if o == null then {} else {o}
  }

  /** Pool memory the model does not look inside (VMCS and VMXON regions,
      EPT data, hook data). */
  class Region {
    constructor ()
    {
    }
  }

  /** The kernel's pool: the allocations not yet freed. */
  class Kernel {
    var live: set<object>

    constructor ()
      ensures live == {}
    {
      live := {};
    }
  }

  /** SharedProcessorData. */
  class SharedProcessorData {
    var referenceCount: int
    var msrBitmap: array?<bv8>
    var sharedShData: Region?

    constructor ()
      ensures referenceCount == 0 && msrBitmap == null && sharedShData == null
    {
      referenceCount := 0;
      msrBitmap := null;
      sharedShData := null;
    }

    /** The shared block and what hangs off it. */
    ghost function Footprint(): set<object>
      reads this
    {
      {this} + Opt(msrBitmap) + Opt(sharedShData)
    }
  }

  /** ProcessorData. address is the pool address the allocator returned,
      which the VMM finds on its stack. */
  class ProcessorData {
    const address: bv64
    var sharedData: SharedProcessorData?
    var vmmStackLimit: array?<bv64>
    var vmcsRegion: Region?
    var vmxonRegion: Region?
    var eptData: Region?
    var shData: Region?

    constructor (address: bv64)
      ensures this.address == address
      ensures sharedData == null && vmmStackLimit == null && vmcsRegion == null
      ensures vmxonRegion == null && eptData == null && shData == null
    {
      this.address := address;
      sharedData := null;
      vmmStackLimit := null;
      vmcsRegion := null;
      vmxonRegion := null;
      eptData := null;
      shData := null;
    }

    /** The block and its non-null members. */
    ghost function All(): set<object>
      reads this
    {
      {this} + Members()
    }

    /** The non-null members. */
    ghost function Members(): set<object>
      reads this
    {
      Opt(vmmStackLimit) + Opt(vmcsRegion) + Opt(vmxonRegion) + Opt(eptData) + Opt(shData)
    }

    /** No two members are the same allocation. */
    ghost predicate Distinct()
      reads this
    {
      && (vmcsRegion != null && vmxonRegion != null ==> vmcsRegion != vmxonRegion)
      && (vmcsRegion != null && eptData != null ==> vmcsRegion != eptData)
      && (vmcsRegion != null && shData != null ==> vmcsRegion != shData)
      && (vmxonRegion != null && eptData != null ==> vmxonRegion != eptData)
      && (vmxonRegion != null && shData != null ==> vmxonRegion != shData)
      && (eptData != null && shData != null ==> eptData != shData)
    }

    /** The block and its members are distinct live allocations. */
    ghost predicate Holds(k: Kernel)
      reads this, k
    {
      Distinct() && All() <= k.live
    }

    /** While VmpInitializeVm allocates: no shared data yet, and the live
        allocations are those of base plus the block and its members, none
        of which was in base. */
    ghost predicate Building(k: Kernel, base: set<object>)
      reads this, k
    {
      sharedData == null && Holds(k) && k.live == base + All() && All() !! base
    }

    /** Everything VmpFreeProcessorData will free is live, and a set
        shared_data holds a reference on a live shared block. */
    ghost predicate Owned(k: Kernel)
      reads this, k, sharedData
    {
      && Holds(k)
      && (sharedData != null ==>
            && sharedData.referenceCount >= 1
            && sharedData.Footprint() <= k.live
            && sharedData.Footprint() !! All())
    }
  }

  /** One logical processor. vmmData is what the VMM hands back on the
      terminate hypercall once the processor runs as a guest. */
  class Processor {
    var vmxOn: bool
    var launched: bool
    var vmmData: ProcessorData?
    var hostRsp: bv64

    constructor ()
      ensures !vmxOn && !launched && vmmData == null
    {
      vmxOn := false;
      launched := false;
      vmmData := null;
      hostRsp := 0;
    }
  }

  // ---------------------------------------------------------------------
  // Pool

  method AllocateRegion(k: Kernel, succeeds: bool) returns (r: Region?)
    modifies k
    ensures succeeds ==> r != null && fresh(r) && k.live == old(k.live) + {r}
    ensures !succeeds ==> r == null && k.live == old(k.live)
  {
    if succeeds {
      r := new Region();
      k.live := k.live + {r};
    } else {
      r := null;
    }
  }

  /** UtilAllocateContiguousMemory(KERNEL_STACK_SIZE), as 64-bit words. */
  method AllocateStack(k: Kernel, succeeds: bool) returns (s: array?<bv64>)
    modifies k
    ensures succeeds ==> s != null && fresh(s) && s.Length == StackWords && k.live == old(k.live) + {s}
    ensures !succeeds ==> s == null && k.live == old(k.live)
  {
    if succeeds {
      s := new bv64[StackWords];
      k.live := k.live + {s};
    } else {
      s := null;
    }
  }

  /** ExFreePoolWithTag and friends: only a live allocation can be freed. */
  method Free(k: Kernel, o: object)
    requires o in k.live
    modifies k
    ensures k.live == old(k.live) - {o}
  {
    k.live := k.live - {o};
  }

  // ---------------------------------------------------------------------
  // Release

  method FreeIfAllocated(k: Kernel, o: object?)
    requires Opt(o) <= k.live
    modifies k
    ensures k.live == old(k.live) - Opt(o)
  {
    if o != null {
      Free(k, o);
    }
  }

  /** The member frees of VmpFreeProcessorData. */
  method FreeMembers(k: Kernel, pd: ProcessorData)
    requires pd.Distinct() && pd.Members() <= k.live
    modifies k
    ensures k.live == old(k.live) - pd.Members()
  {
    FreeIfAllocated(k, pd.vmmStackLimit);
    FreeIfAllocated(k, pd.vmcsRegion);
    FreeIfAllocated(k, pd.vmxonRegion);
    FreeIfAllocated(k, pd.shData);
    FreeIfAllocated(k, pd.eptData);
  }

  /** Dropping one reference on the shared block (InterlockedDecrement),
      and freeing the block with its bitmap and hook data at zero. */
  method ReleaseShared(k: Kernel, shared: SharedProcessorData)
    requires shared.referenceCount >= 1 && shared.Footprint() <= k.live
    modifies k, shared
    ensures shared.referenceCount == old(shared.referenceCount) - 1
    ensures shared.msrBitmap == old(shared.msrBitmap) && shared.sharedShData == old(shared.sharedShData)
    ensures k.live == old(k.live) - (if shared.referenceCount == 0 then shared.Footprint() else {})
  {
    shared.referenceCount := shared.referenceCount - 1;
    if shared.referenceCount == 0 {
      FreeIfAllocated(k, shared.msrBitmap);
      FreeIfAllocated(k, shared.sharedShData);
      Free(k, shared);
    }
  }

  /** VmpFreeProcessorData: nothing for null; otherwise frees each non-null
      member and the block itself, and drops the reference on the shared
      block, freeing the bitmap, the shared hook data and the block when
      that was the last reference. */
  method FreeProcessorData(k: Kernel, pd: ProcessorData?)
    requires pd != null ==> pd.Owned(k)
    modifies k, if pd != null && pd.sharedData != null then {pd.sharedData} else {}
    ensures pd == null ==> k.live == old(k.live)
    ensures pd != null && pd.sharedData == null ==> k.live == old(k.live) - pd.All()
    ensures pd != null && pd.sharedData != null ==>
              && pd.sharedData.referenceCount == old(pd.sharedData.referenceCount) - 1
              && pd.sharedData.msrBitmap == old(pd.sharedData.msrBitmap)
              && pd.sharedData.sharedShData == old(pd.sharedData.sharedShData)
              && k.live == old(k.live) - pd.All() -
                           (if pd.sharedData.referenceCount == 0 then pd.sharedData.Footprint() else {})
  {
    if pd == null {
      return;
    }
    FreeMembers(k, pd);
    if pd.sharedData != null {
      ReleaseShared(k, pd.sharedData);
    }
    Free(k, pd);
  }

  // ---------------------------------------------------------------------
  // The shared block

  /** Whether each step of VmpInitializeSharedData succeeds. */
  datatype SharedOutcome = SharedOutcome(block: bool, bitmap: bool, sharedHookData: bool)

  /** VmpInitializeSharedData: null, with nothing left allocated, when any
      of its three allocations fails; otherwise a block with no reference,
      the MSR bitmap built as MsrBitmap.InitializeMsrBitmap promises, and
      the shared hook data. unsafeMsrs stands for the probe loop's result. */
  method InitializeSharedData(k: Kernel, o: SharedOutcome, unsafeMsrs: seq<bool>) returns (shared: SharedProcessorData?)
    requires |unsafeMsrs| == MsrBitmap.ProbedMsrs
    modifies k
    ensures shared == null <==> !(o.block && o.bitmap && o.sharedHookData)
    ensures shared == null ==> k.live == old(k.live)
    ensures shared != null ==>
              && fresh(shared) && fresh(shared.msrBitmap) && fresh(shared.sharedShData)
              && shared.msrBitmap != null && shared.sharedShData != null
              && shared.referenceCount == 0
              && k.live == old(k.live) + shared.Footprint() && shared.Footprint() !! old(k.live)
              && shared.msrBitmap.Length == MsrBitmap.BitmapBytes
              && forall b :: 0 <= b < 8 * MsrBitmap.BitmapBytes ==>
                   MsrBitmap.Bit(shared.msrBitmap[..], b) == MsrBitmap.Intercepted(unsafeMsrs, b)
  {
    if !o.block {
      return null;
    }
    shared := new SharedProcessorData();
    k.live := k.live + {shared};
    if !o.bitmap {
      Free(k, shared);
      return null;
    }
    var bitmap := new bv8[MsrBitmap.BitmapBytes];
    k.live := k.live + {bitmap};
    shared.msrBitmap := bitmap;
    MsrBitmap.InitializeMsrBitmap(bitmap, unsafeMsrs);
    var hookData := AllocateRegion(k, o.sharedHookData);
    shared.sharedShData := hookData;
    if hookData == null {
      Free(k, bitmap);
      Free(k, shared);
      return null;
    }
  }

  // ---------------------------------------------------------------------
  // One processor

  /** Whether each step of VmpInitializeVm succeeds, the status of every
      VMCS write in VmpSetupVMCS, and the addresses the allocator returns. */
  datatype BringUp = BringUp(
    processorData: bool, ept: bool, shadowHook: bool, stack: bool, vmcs: bool, vmxon: bool,
    vmxOnSucceeds: bool, vmcsInitSucceeds: bool, vmcsWrites: seq<bv8>, launchSucceeds: bool,
    processorDataAddress: bv64, stackAddress: bv64)

  /** Every allocation of the bring-up succeeds. */
  predicate Allocated(o: BringUp)
  {
    o.processorData && o.ept && o.shadowHook && o.stack && o.vmcs && o.vmxon
  }

  /** The bring-up reaches VMLAUNCH and it succeeds. */
  predicate Virtualizes(o: BringUp)
  {
    && Allocated(o) && o.vmxOnSucceeds && o.vmcsInitSucceeds
    && (forall w :: 0 <= w < |o.vmcsWrites| ==> o.vmcsWrites[w] == VmxOk)
    && o.launchSucceeds
  }

  /** The initial VMM stack pointer: below the processor_data back-pointer
      and the MAXULONG_PTR sentinel at the top of the stack. */
  function VmmStackBase(stackLimit: bv64): bv64
  {
    stackLimit + (KernelStackSize - 16) as bv64
  }

  /** VmpEnterVmxMode, reduced to whether VMXON succeeds. */
  method EnterVmxMode(cpu: Processor, succeeds: bool) returns (ok: bool)
    requires !cpu.vmxOn
    modifies cpu
    ensures ok == succeeds && cpu.vmxOn == succeeds
    ensures cpu.launched == old(cpu.launched) && cpu.vmmData == old(cpu.vmmData) && cpu.hostRsp == old(cpu.hostRsp)
  {
    cpu.vmxOn := succeeds;
    ok := succeeds;
  }

  /** __vmx_off: only legal in VMX operation. */
  method VmxOff(cpu: Processor)
    requires cpu.vmxOn
    modifies cpu
    ensures !cpu.vmxOn
    ensures cpu.launched == old(cpu.launched) && cpu.vmmData == old(cpu.vmmData) && cpu.hostRsp == old(cpu.hostRsp)
  {
    cpu.vmxOn := false;
  }

  /** VmpSetupVMCS reduced to its status: it ORs the VmxStatus of every
      write and succeeds when the result is kOk, that is exactly when every
      write succeeded. The host RSP written is the VMM stack pointer. */
  method SetupVmcs(cpu: Processor, writes: seq<bv8>, vmmStackPointer: bv64) returns (ok: bool)
    modifies cpu
    ensures ok <==> forall w :: 0 <= w < |writes| ==> writes[w] == VmxOk
    ensures cpu.hostRsp == vmmStackPointer
    ensures cpu.vmxOn == old(cpu.vmxOn) && cpu.launched == old(cpu.launched) && cpu.vmmData == old(cpu.vmmData)
  {
    var error := VmxOk;
    for w := 0 to |writes|
      invariant error == CombinedStatus(writes[..w])
    {
      error := error | writes[w];
      assert writes[..w + 1][..w] == writes[..w];
    }
    assert writes[..|writes|] == writes;
    cpu.hostRsp := vmmStackPointer;
    CombinedStatusOk(writes);
    ok := error == VmxOk;
  }

  /** RtlZeroMemory on the VMM stack. */
  method ZeroStack(s: array<bv64>)
    modifies s
    ensures forall w :: 0 <= w < s.Length ==> s[w] == 0
  {
    for w := 0 to s.Length
      invariant forall v :: 0 <= v < w ==> s[v] == 0
    {
      s[w] := 0;
    }
  }

  /** The allocation phase of VmpInitializeVm: the block, EPT data, hook
      data, VMM stack, VMCS and VMXON regions. When one fails, the goto
      ReturnFalse path frees what was allocated and nothing is left. */
  method AllocateProcessorData(k: Kernel, o: BringUp) returns (pd: ProcessorData?)
    modifies k
    ensures pd == null <==> !Allocated(o)
    ensures pd == null ==> k.live == old(k.live)
    ensures pd != null ==>
              && fresh(pd) && pd.address == o.processorDataAddress
              && pd.vmmStackLimit != null && fresh(pd.vmmStackLimit) && pd.vmmStackLimit.Length == StackWords
              && pd.vmcsRegion != null && pd.vmxonRegion != null && pd.eptData != null && pd.shData != null
              && pd.Building(k, old(k.live))
  {
    if !o.processorData {
      return null;
    }
    ghost var base := k.live;
    pd := new ProcessorData(o.processorDataAddress);
    k.live := k.live + {pd};
    var ok := AddEptData(k, pd, o.ept, base);
    if ok {
      ok := AddShadowHookData(k, pd, o.shadowHook, base);
      if ok {
        ok := AddStackAndRegions(k, pd, o, base);
      }
    }
    if !ok {
      FreeProcessorData(k, pd);
      return null;
    }
  }

  /** EptInitialization, as far as the pool is concerned. */
  method AddEptData(k: Kernel, pd: ProcessorData, succeeds: bool, ghost base: set<object>) returns (ok: bool)
    requires pd.Building(k, base) && pd.Members() == {}
    modifies k, pd
    ensures pd.Building(k, base) && ok == succeeds && (pd.eptData != null) == ok
    ensures pd.vmmStackLimit == null && pd.vmcsRegion == null && pd.vmxonRegion == null && pd.shData == null
  {
    var ept := AllocateRegion(k, succeeds);
    pd.eptData := ept;
    ok := ept != null;
  }

  /** ShAllocateShadowHookData. */
  method AddShadowHookData(k: Kernel, pd: ProcessorData, succeeds: bool, ghost base: set<object>) returns (ok: bool)
    requires pd.Building(k, base) && pd.eptData != null
    requires pd.vmmStackLimit == null && pd.vmcsRegion == null && pd.vmxonRegion == null && pd.shData == null
    modifies k, pd
    ensures pd.Building(k, base) && ok == succeeds && (pd.shData != null) == ok
    ensures pd.eptData == old(pd.eptData)
    ensures pd.vmmStackLimit == null && pd.vmcsRegion == null && pd.vmxonRegion == null
  {
    var hookData := AllocateRegion(k, succeeds);
    pd.shData := hookData;
    ok := hookData != null;
  }

  /** The VMM stack, VMCS and VMXON allocations, which VmpInitializeVm
      stores before it checks them together. */
  method AddStackAndRegions(k: Kernel, pd: ProcessorData, o: BringUp, ghost base: set<object>) returns (ok: bool)
    requires pd.Building(k, base) && pd.eptData != null && pd.shData != null
    requires pd.vmmStackLimit == null && pd.vmcsRegion == null && pd.vmxonRegion == null
    modifies k, pd
    ensures pd.Building(k, base) && (ok <==> o.stack && o.vmcs && o.vmxon)
    ensures pd.eptData == old(pd.eptData) && pd.shData == old(pd.shData)
    ensures ok ==> && pd.vmmStackLimit != null && fresh(pd.vmmStackLimit) && pd.vmmStackLimit.Length == StackWords
                   && pd.vmcsRegion != null && pd.vmxonRegion != null
  {
    AddStack(k, pd, o.stack, base);
    AddVmcsRegion(k, pd, o.vmcs, base);
    AddVmxonRegion(k, pd, o.vmxon, base);
    ok := pd.vmmStackLimit != null && pd.vmcsRegion != null && pd.vmxonRegion != null;
  }

  /** UtilAllocateContiguousMemory(KERNEL_STACK_SIZE) into vmm_stack_limit. */
  method AddStack(k: Kernel, pd: ProcessorData, succeeds: bool, ghost base: set<object>)
    requires pd.Building(k, base) && pd.vmmStackLimit == null
    modifies k, pd
    ensures pd.Building(k, base) && (pd.vmmStackLimit != null) == succeeds
    ensures pd.vmmStackLimit != null ==> fresh(pd.vmmStackLimit) && pd.vmmStackLimit.Length == StackWords
    ensures pd.eptData == old(pd.eptData) && pd.shData == old(pd.shData)
    ensures pd.vmcsRegion == old(pd.vmcsRegion) && pd.vmxonRegion == old(pd.vmxonRegion)
  {
    var stack := AllocateStack(k, succeeds);
    pd.vmmStackLimit := stack;
  }

  /** The VMCS region allocation into vmcs_region. */
  method AddVmcsRegion(k: Kernel, pd: ProcessorData, succeeds: bool, ghost base: set<object>)
    requires pd.Building(k, base) && pd.vmcsRegion == null && pd.vmxonRegion == null
    modifies k, pd
    ensures pd.Building(k, base) && (pd.vmcsRegion != null) == succeeds && pd.vmxonRegion == null
    ensures pd.eptData == old(pd.eptData) && pd.shData == old(pd.shData) && pd.vmmStackLimit == old(pd.vmmStackLimit)
  {
    var vmcs := AllocateRegion(k, succeeds);
    pd.vmcsRegion := vmcs;
  }

  /** The VMXON region allocation into vmxon_region. */
  method AddVmxonRegion(k: Kernel, pd: ProcessorData, succeeds: bool, ghost base: set<object>)
    requires pd.Building(k, base) && pd.vmxonRegion == null
    modifies k, pd
    ensures pd.Building(k, base) && (pd.vmxonRegion != null) == succeeds
    ensures pd.eptData == old(pd.eptData) && pd.shData == old(pd.shData) && pd.vmmStackLimit == old(pd.vmmStackLimit)
    ensures pd.vmcsRegion == old(pd.vmcsRegion)
  {
    var vmxon := AllocateRegion(k, succeeds);
    pd.vmxonRegion := vmxon;
  }

  /** The VMM stack as VmpInitializeVm lays it out: zeroed, with
      MAXULONG_PTR at top - 16 and the processor_data address at top - 8.
      Returns the initial VMM stack pointer for a stack at stackAddress. */
  method PrepareStack(stack: array<bv64>, processorData: bv64, stackAddress: bv64) returns (stackBase: bv64)
    requires stack.Length == StackWords
    modifies stack
    ensures stack[StackWords - 1] == processorData
    ensures stack[StackWords - 2] == MaxUlongPtr
    ensures forall w :: 0 <= w < StackWords - 2 ==> stack[w] == 0
    ensures stackBase == VmmStackBase(stackAddress)
  {
    ZeroStack(stack);
    stack[StackWords - 2] := MaxUlongPtr;       // vmm_stack_base, top - 16
    stack[StackWords - 1] := processorData;     // vmm_stack_data, top - 8
    stackBase := VmmStackBase(stackAddress);
  }

  /** The VMX phase of VmpInitializeVm, with the reference on the shared
      block already taken: VMXON, VMCS initialisation, VMCS set-up, VMLAUNCH.
      A failure leaves VMX operation when it was entered and frees the
      block, dropping the reference. */
  method Launch(k: Kernel, cpu: Processor, pd: ProcessorData, o: BringUp, stackBase: bv64)
    requires !cpu.vmxOn && !cpu.launched
    requires pd.sharedData != null && pd.Owned(k)
    modifies k, cpu, pd.sharedData
    ensures pd.sharedData.msrBitmap == old(pd.sharedData.msrBitmap)
    ensures pd.sharedData.sharedShData == old(pd.sharedData.sharedShData)
    ensures cpu.launched <==> o.vmxOnSucceeds && o.vmcsInitSucceeds &&
                              (forall w :: 0 <= w < |o.vmcsWrites| ==> o.vmcsWrites[w] == VmxOk) && o.launchSucceeds
    ensures cpu.launched ==>
              && cpu.vmxOn && cpu.vmmData == pd && cpu.hostRsp == stackBase
              && k.live == old(k.live) && pd.sharedData.referenceCount == old(pd.sharedData.referenceCount)
    ensures !cpu.launched ==>
              && !cpu.vmxOn && cpu.vmmData == old(cpu.vmmData)
              && pd.sharedData.referenceCount == old(pd.sharedData.referenceCount) - 1
              && k.live == old(k.live) - pd.All() -
                           (if pd.sharedData.referenceCount == 0 then pd.sharedData.Footprint() else {})
  {
    var ready := PrepareVmx(cpu, o, stackBase);
    if ready && o.launchSucceeds {
      // VMLAUNCH does not return: the processor continues as a guest.
      cpu.launched := true;
      cpu.vmmData := pd;
      return;
    }
    if ready {
      VmxOff(cpu);
    }
    FreeProcessorData(k, pd);
  }

  /** VMXON, VMCS initialisation and VMCS set-up; a failure after VMXON
      leaves VMX operation again (ReturnFalseWithVmxOff). */
  method PrepareVmx(cpu: Processor, o: BringUp, stackBase: bv64) returns (ready: bool)
    requires !cpu.vmxOn && !cpu.launched
    modifies cpu
    ensures ready <==> o.vmxOnSucceeds && o.vmcsInitSucceeds &&
                       (forall w :: 0 <= w < |o.vmcsWrites| ==> o.vmcsWrites[w] == VmxOk)
    ensures cpu.vmxOn == ready && !cpu.launched && cpu.vmmData == old(cpu.vmmData)
    ensures ready ==> cpu.hostRsp == stackBase
  {
    var entered := EnterVmxMode(cpu, o.vmxOnSucceeds);
    if !entered {
      return false;
    }
    if !o.vmcsInitSucceeds {
      VmxOff(cpu);
      return false;
    }
    ready := SetupVmcs(cpu, o.vmcsWrites, stackBase);
    if !ready {
      VmxOff(cpu);
    }
  }

  /** VmpInitializeVm.
      - With a null context or a failed allocation nothing is left
        allocated and the processor is untouched.
      - When every step succeeds the processor runs as a guest, in VMX
        operation, its block holds a reference on the shared block, the VMM
        stack ends with the sentinel and the back-pointer, and host RSP is
        the stack base.
      - Otherwise the processor is out of VMX operation and not virtualized,
        the reference count is as before, and everything allocated is freed
        again; the shared block itself is freed too when the reference taken
        was its first. */
  method InitializeVm(k: Kernel, cpu: Processor, shared: SharedProcessorData?, o: BringUp)
    requires !cpu.vmxOn && !cpu.launched
    requires shared != null ==> shared.referenceCount >= 0 && shared.Footprint() <= k.live
    modifies k, cpu, shared
    ensures shared != null ==> shared.msrBitmap == old(shared.msrBitmap) && shared.sharedShData == old(shared.sharedShData)
    ensures shared == null ==> k.live == old(k.live) && !cpu.vmxOn && !cpu.launched && cpu.vmmData == old(cpu.vmmData)
    ensures shared != null && Virtualizes(o) ==>
              && cpu.launched && cpu.vmxOn
              && cpu.vmmData != null && fresh(cpu.vmmData) && cpu.vmmData.sharedData == shared
              && cpu.vmmData.address == o.processorDataAddress
              && cpu.vmmData.All() !! old(k.live)
              && cpu.vmmData.Owned(k)
              && shared.referenceCount == old(shared.referenceCount) + 1
              && k.live == old(k.live) + cpu.vmmData.All()
              && cpu.vmmData.vmmStackLimit != null
              && cpu.vmmData.vmmStackLimit.Length == StackWords
              && cpu.vmmData.vmmStackLimit[StackWords - 1] == o.processorDataAddress
              && cpu.vmmData.vmmStackLimit[StackWords - 2] == MaxUlongPtr
              && (forall w :: 0 <= w < StackWords - 2 ==> cpu.vmmData.vmmStackLimit[w] == 0)
              && cpu.hostRsp == VmmStackBase(o.stackAddress)
    ensures shared != null && !Virtualizes(o) ==>
              && !cpu.vmxOn && !cpu.launched && cpu.vmmData == old(cpu.vmmData)
              && shared.referenceCount == old(shared.referenceCount)
              && k.live == old(k.live) -
                   (if Allocated(o) && old(shared.referenceCount) == 0 then old(shared.Footprint()) else {})
  {
    if shared == null {
      return;
    }
    var pd := AllocateProcessorData(k, o);
    if pd == null {
      return;
    }
    ShareAndLaunch(k, cpu, shared, pd, o, old(k.live));
  }

  /** The rest of VmpInitializeVm once every allocation succeeded: the
      stack layout, the reference on the shared block, and Launch. */
  method ShareAndLaunch(k: Kernel, cpu: Processor, shared: SharedProcessorData, pd: ProcessorData, o: BringUp,
                        ghost base: set<object>)
    requires Allocated(o) && !cpu.vmxOn && !cpu.launched
    requires shared.referenceCount >= 0 && shared.Footprint() <= base && pd.Building(k, base)
    requires pd.vmmStackLimit != null && pd.vmmStackLimit.Length == StackWords
    modifies k, cpu, shared, pd, pd.vmmStackLimit
    ensures shared.msrBitmap == old(shared.msrBitmap) && shared.sharedShData == old(shared.sharedShData)
    ensures pd.vmmStackLimit == old(pd.vmmStackLimit) && pd.Members() == old(pd.Members())
    ensures cpu.launched <==> Virtualizes(o)
    ensures cpu.launched ==>
              && cpu.vmxOn && cpu.vmmData == pd && pd.sharedData == shared
              && pd.Owned(k) && k.live == old(k.live)
              && shared.referenceCount == old(shared.referenceCount) + 1
              && pd.vmmStackLimit[StackWords - 1] == pd.address
              && pd.vmmStackLimit[StackWords - 2] == MaxUlongPtr
              && (forall w :: 0 <= w < StackWords - 2 ==> pd.vmmStackLimit[w] == 0)
              && cpu.hostRsp == VmmStackBase(o.stackAddress)
    ensures !cpu.launched ==>
              && !cpu.vmxOn && cpu.vmmData == old(cpu.vmmData)
              && shared.referenceCount == old(shared.referenceCount)
              && k.live == old(k.live) - old(pd.All()) -
                           (if old(shared.referenceCount) == 0 then old(shared.Footprint()) else {})
  {
    var stackBase := PrepareStack(pd.vmmStackLimit, pd.address, o.stackAddress);
    pd.sharedData := shared;
    shared.referenceCount := shared.referenceCount + 1;
    Launch(k, cpu, pd, o, stackBase);
  }

  // ---------------------------------------------------------------------
  // Stopping one processor

  /** VmpStopVM: the terminate hypercall. On a virtualized processor the
      VMM leaves VMX operation and hands back its block, which is freed;
      on any other processor the hypercall fails and nothing changes. */
  method StopVm(k: Kernel, cpu: Processor) returns (ok: bool)
    requires cpu.launched ==> cpu.vmmData != null && cpu.vmmData.Owned(k)
    modifies k, cpu, if cpu.launched && cpu.vmmData != null && cpu.vmmData.sharedData != null
                     then {cpu.vmmData.sharedData} else {}
    ensures ok == old(cpu.launched)
    ensures !ok ==> k.live == old(k.live) && cpu.vmxOn == old(cpu.vmxOn) && !cpu.launched && cpu.vmmData == old(cpu.vmmData)
    ensures ok ==> !cpu.vmxOn && !cpu.launched && cpu.vmmData == null
    ensures ok && old(cpu.vmmData.sharedData) == null ==> k.live == old(k.live) - old(cpu.vmmData.All())
    ensures ok && old(cpu.vmmData.sharedData) != null ==>
              var shared := old(cpu.vmmData.sharedData);
              && shared.referenceCount == old(shared.referenceCount) - 1
              && shared.msrBitmap == old(shared.msrBitmap) && shared.sharedShData == old(shared.sharedShData)
              && k.live == old(k.live) - old(cpu.vmmData.All()) -
                           (if shared.referenceCount == 0 then shared.Footprint() else {})
  {
    if !cpu.launched {
      return false;
    }
    var pd := cpu.vmmData;
    cpu.launched := false;
    cpu.vmxOn := false;
    cpu.vmmData := null;
    FreeProcessorData(k, pd);
    ok := true;
  }
}
