/** VmInitialization in HyperPlatform/HyperPlatform/vm.cpp: the checks it
    makes before virtualizing, its status codes, and the rollback when a
    processor or DdimonInitialization fails; both as the source has it and
    with the shared block holding a reference of its own while the
    processors are started. */
module VmInit {
  import opened Base
  import opened VmBits
  import MsrBitmap
  import opened VmLifecycle
  import opened VmProcessors

  /** What VmInitialization finds: the registers the backdoor CPUID leaf
      returns, whether VmpIsVmxAvailable succeeds, how the shared block's
      allocations go, the MSR probe, every processor's bring-up in order,
      and the status DdimonInitialization returns. */
  datatype Environment = Environment(
    backdoorEbx: bv32, backdoorEcx: bv32, backdoorEdx: bv32,
    vmxAvailable: bool, sharedOutcome: SharedOutcome, unsafeMsrs: seq<bool>,
    outcomes: seq<BringUp>, ddimonStatus: bv32)

  /** The status VmInitialization returns, checks in source order: an
      installed VMM, missing VMX support, a failed shared block, a processor
      that was not virtualized, then DdimonInitialization. */
  function InitializationStatus(env: Environment): bv32
  {
    if IsVmmInstalled(env.backdoorEbx, env.backdoorEcx, env.backdoorEdx) then StatusCancelled
    else if !env.vmxAvailable then StatusHvFeatureUnavailable
    else if !(env.sharedOutcome.block && env.sharedOutcome.bitmap && env.sharedOutcome.sharedHookData)
    then StatusMemoryNotAllocated
    else if FirstFailure(env.outcomes) < |env.outcomes| then StatusUnsuccessful
    else env.ddimonStatus
  }

  /** VmInitialization succeeds exactly when no VMM is installed, VMX is
      available, the shared block is allocated, every processor is
      virtualized and DdimonInitialization succeeds; the status is then
      DdimonInitialization's. */
  lemma InitializationSucceeds(env: Environment)
    ensures NtSuccess(InitializationStatus(env)) <==>
              && !IsVmmInstalled(env.backdoorEbx, env.backdoorEcx, env.backdoorEdx)
              && env.vmxAvailable
              && env.sharedOutcome.block && env.sharedOutcome.bitmap && env.sharedOutcome.sharedHookData
              && FirstFailure(env.outcomes) == |env.outcomes|
              && NtSuccess(env.ddimonStatus)
    ensures NtSuccess(InitializationStatus(env)) ==> InitializationStatus(env) == env.ddimonStatus
  {
    assert !NtSuccess(StatusCancelled) && !NtSuccess(StatusHvFeatureUnavailable);
    assert !NtSuccess(StatusMemoryNotAllocated) && !NtSuccess(StatusUnsuccessful);
  }

  /** Whether stopping every processor after a failed attempt drops the
      last reference on a shared block nobody else holds: some processor
      took a reference, which happens unless the first processor failed
      before VmpInitializeVm reached the increment. */
  predicate ReleasesShared(outcomes: seq<BringUp>)
    requires |outcomes| >= 1
  {
    FirstFailure(outcomes) > 0 || Allocated(outcomes[0])
  }

  /** The part of VmInitialization after the shared block exists:
      UtilForEachProcessor(VmpStartVM), then DdimonInitialization; when
      either fails, UtilForEachProcessor(VmpStopVM) and its status. */
  method StartProcessors(k: Kernel, cpus: seq<Processor>, shared: SharedProcessorData,
                         outcomes: seq<BringUp>, ddimonStatus: bv32)
    returns (status: bv32, ghost pds: seq<ProcessorData>, ghost blocks: seq<set<object>>)
    requires DistinctCpus(cpus) && |cpus| >= 1 && |outcomes| == |cpus|
    requires forall j :: 0 <= j < |cpus| ==> Quiet(cpus[j])
    requires shared.referenceCount >= 0 && shared.Footprint() <= k.live
    modifies k, shared, cpus
    ensures status == if FirstFailure(outcomes) < |cpus| then StatusUnsuccessful else ddimonStatus
    ensures shared.msrBitmap == old(shared.msrBitmap) && shared.sharedShData == old(shared.sharedShData)
    ensures NtSuccess(status) ==>
              && |pds| == |cpus| && Started(k, cpus, shared, pds, blocks)
              && shared.referenceCount == old(shared.referenceCount) + |cpus|
              && Union(blocks, |blocks|) !! old(k.live)
              && k.live == old(k.live) + Union(blocks, |blocks|)
    ensures !NtSuccess(status) ==>
              && (forall j :: 0 <= j < |cpus| ==> Quiet(cpus[j]))
              && shared.referenceCount == old(shared.referenceCount)
              && k.live == old(k.live) -
                   (if old(shared.referenceCount) == 0 && ReleasesShared(outcomes) then old(shared.Footprint()) else {})
  {
    ghost var origin, count := k.live, shared.referenceCount;
    var started;
    started, pds, blocks := StartAll(k, cpus, shared, outcomes);
    if started {
      status := ddimonStatus;
      if NtSuccess(status) {
        return;
      }
    } else {
      status := StatusUnsuccessful;
      assert !NtSuccess(status);
    }
    ghost var live, footprint := k.live, shared.Footprint();
    ghost var dropped := !started && Allocated(outcomes[|pds|]) && count + |pds| == 0;
    var stopped := StopAll(k, cpus, shared, pds, blocks);
    ghost var released := |pds| > 0 && count + |pds| == |pds|;
    assert shared.Footprint() == footprint;
    assert (dropped || released) == (count == 0 && ReleasesShared(outcomes));
    UndoStart(origin, Union(blocks, |blocks|), footprint, live, k.live, dropped, released);
  }

  /** Freeing the blocks a start attempt added, and the shared block when
      either the attempt or the stop dropped its last reference, leaves the
      allocations from before the attempt less the shared block. */
  lemma UndoStart(origin: set<object>, added: set<object>, footprint: set<object>,
                  started: set<object>, stopped: set<object>, dropped: bool, released: bool)
    requires added !! origin
    requires started == origin + added - (if dropped then footprint else {})
    requires stopped == started - added - (if released then footprint else {})
    ensures stopped == origin - (if dropped || released then footprint else {})
  {
  }

  /** VmInitialization as the source has it. The shared block starts
      without a reference and only the processors' blocks hold one, so
      when the first processor fails before it takes its reference nothing
      ever frees the block: on that failure the shared block's allocations
      stay live, and leaked says which they are. */
  method VmInitializationAsWritten(k: Kernel, cpus: seq<Processor>, env: Environment)
    returns (status: bv32, ghost leaked: set<object>)
    requires DistinctCpus(cpus) && |cpus| >= 1 && |env.outcomes| == |cpus|
    requires forall j :: 0 <= j < |cpus| ==> Quiet(cpus[j])
    requires |env.unsafeMsrs| == MsrBitmap.ProbedMsrs
    modifies k, cpus
    ensures status == InitializationStatus(env)
    ensures !NtSuccess(status) ==> forall j :: 0 <= j < |cpus| ==> Quiet(cpus[j])
    ensures !NtSuccess(status) ==> k.live == old(k.live) + leaked && leaked !! old(k.live)
    ensures leaked != {} <==> status == StatusUnsuccessful && !ReleasesShared(env.outcomes)
  {
    leaked := {};
    if IsVmmInstalled(env.backdoorEbx, env.backdoorEcx, env.backdoorEdx) {
      return StatusCancelled, leaked;
    }
    if !env.vmxAvailable {
      return StatusHvFeatureUnavailable, leaked;
    }
    var shared := InitializeSharedData(k, env.sharedOutcome, env.unsafeMsrs);
    if shared == null {
      return StatusMemoryNotAllocated, leaked;
    }
    ghost var pds, blocks;
    status, pds, blocks := StartProcessors(k, cpus, shared, env.outcomes, env.ddimonStatus);
    if !NtSuccess(status) && !ReleasesShared(env.outcomes) {
      leaked := shared.Footprint();
    }
  }

  /** The input that exposes the leak: one processor whose processor data
      cannot be allocated. VmInitialization reports STATUS_UNSUCCESSFUL
      and the shared block stays allocated. */
  method SharedBlockLeak() returns (status: bv32, ghost leaked: set<object>)
    ensures status == StatusUnsuccessful && leaked != {}
  {
    var k := new Kernel();
    var cpu := new Processor();
    var noMemory := BringUp(false, true, true, true, true, true, true, true, [], true, 0, 0);
    var env := Environment(0, 0, 0, true, SharedOutcome(true, true, true),
                           seq(MsrBitmap.ProbedMsrs, _ => false), [noMemory], StatusSuccess);
    IsVmmInstalledExactly(0, 0, 0);
    assert FirstFailure(env.outcomes) == 0;
    status, leaked := VmInitializationAsWritten(k, [cpu], env);
  }

  /** VmInitialization with the shared block holding a reference of its
      own while the processors are started, dropped before returning. On
      any failure nothing allocated stays live and every processor is out
      of VMX operation; on success every processor runs as a guest on its
      own block, all of them referring to the one shared block, whose count
      is the number of processors and whose MSR bitmap is the one
      VmpInitializeSharedData builds. */
  method VmInitialization(k: Kernel, cpus: seq<Processor>, env: Environment)
    returns (status: bv32, ghost shared: SharedProcessorData?, ghost pds: seq<ProcessorData>,
             ghost blocks: seq<set<object>>)
    requires DistinctCpus(cpus) && |cpus| >= 1 && |env.outcomes| == |cpus|
    requires forall j :: 0 <= j < |cpus| ==> Quiet(cpus[j])
    requires |env.unsafeMsrs| == MsrBitmap.ProbedMsrs
    modifies k, cpus
    ensures status == InitializationStatus(env)
    ensures !NtSuccess(status) ==> (forall j :: 0 <= j < |cpus| ==> Quiet(cpus[j])) && k.live == old(k.live)
    ensures NtSuccess(status) ==>
              && shared != null && fresh(shared) && shared.referenceCount == |cpus|
              && |pds| == |cpus| && Started(k, cpus, shared, pds, blocks)
              && (shared.Footprint() + Union(blocks, |blocks|)) !! old(k.live)
              && k.live == old(k.live) + shared.Footprint() + Union(blocks, |blocks|)
              && shared.msrBitmap != null && shared.msrBitmap.Length == MsrBitmap.BitmapBytes
              && forall b :: 0 <= b < 8 * MsrBitmap.BitmapBytes ==>
                   MsrBitmap.Bit(shared.msrBitmap[..], b) == MsrBitmap.Intercepted(env.unsafeMsrs, b)
  {
    shared, pds, blocks := null, [], [];
    if IsVmmInstalled(env.backdoorEbx, env.backdoorEcx, env.backdoorEdx) {
      return StatusCancelled, shared, pds, blocks;
    }
    if !env.vmxAvailable {
      return StatusHvFeatureUnavailable, shared, pds, blocks;
    }
    var sharedData := InitializeSharedData(k, env.sharedOutcome, env.unsafeMsrs);
    shared := sharedData;
    if sharedData == null {
      return StatusMemoryNotAllocated, shared, pds, blocks;
    }
    status, pds, blocks := StartWithReference(k, cpus, sharedData, env.outcomes, env.ddimonStatus);
  }

  /** The corrected tail of VmInitialization: takes a reference on the new
      shared block for the duration of the start, so the block is freed on
      every failure, and stays with the processors on success. */
  method StartWithReference(k: Kernel, cpus: seq<Processor>, shared: SharedProcessorData,
                            outcomes: seq<BringUp>, ddimonStatus: bv32)
    returns (status: bv32, ghost pds: seq<ProcessorData>, ghost blocks: seq<set<object>>)
    requires DistinctCpus(cpus) && |cpus| >= 1 && |outcomes| == |cpus|
    requires forall j :: 0 <= j < |cpus| ==> Quiet(cpus[j])
    requires shared.referenceCount == 0 && shared.Footprint() <= k.live
    modifies k, shared, cpus
    ensures status == if FirstFailure(outcomes) < |cpus| then StatusUnsuccessful else ddimonStatus
    ensures shared.msrBitmap == old(shared.msrBitmap) && shared.sharedShData == old(shared.sharedShData)
    ensures !NtSuccess(status) ==>
              && (forall j :: 0 <= j < |cpus| ==> Quiet(cpus[j]))
              && k.live == old(k.live) - old(shared.Footprint())
    ensures NtSuccess(status) ==>
              && shared.referenceCount == |cpus|
              && |pds| == |cpus| && Started(k, cpus, shared, pds, blocks)
              && Union(blocks, |blocks|) !! old(k.live)
              && k.live == old(k.live) + Union(blocks, |blocks|)
  {
    shared.referenceCount := 1;
    status, pds, blocks := StartProcessors(k, cpus, shared, outcomes, ddimonStatus);
    ReleaseShared(k, shared);
  }
}
