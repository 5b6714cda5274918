/** UtilForEachProcessor with VmpStartVM and with VmpStopVM in
    HyperPlatform/HyperPlatform/vm.cpp: the processors are started in
    order until one is not virtualized, and stopped in order until one is
    not running, with the bookkeeping of the blocks each started processor
    holds and of the references they take on the shared block. */
module VmProcessors {
  import opened VmLifecycle

  /** No processor appears twice. */
  ghost predicate DistinctCpus(cpus: seq<Processor>)
  {
    forall i, j :: 0 <= i < j < |cpus| ==> cpus[i] != cpus[j]
  }

  /** The index of the first processor whose bring-up does not virtualize
      it, or the number of processors. */
  function FirstFailure(outcomes: seq<BringUp>): (f: nat)
    ensures f <= |outcomes|
    ensures forall j :: 0 <= j < f ==> Virtualizes(outcomes[j])
    ensures f < |outcomes| ==> !Virtualizes(outcomes[f])
  {
    if |outcomes| == 0 then 0
    else if !Virtualizes(outcomes[0]) then 0
    else 1 + FirstFailure(outcomes[1..])
  }

  /** The union of the first n sets. */
  ghost function Union(blocks: seq<set<object>>, n: nat): set<object>
    requires n <= |blocks|
  {
    if n == 0 then {} else Union(blocks, n - 1) + blocks[n - 1]
  }

  /** No two of the sets share an element. */
  ghost predicate Separated(blocks: seq<set<object>>)
  {
    forall i, j :: 0 <= i < j < |blocks| ==> blocks[i] !! blocks[j]
  }

  lemma {:induction false} UnionAgree(a: seq<set<object>>, b: seq<set<object>>, n: nat)
    requires n <= |a| && n <= |b| && a[..n] == b[..n]
    ensures Union(a, n) == Union(b, n)
  {
    if n > 0 {
      assert a[..n - 1] == a[..n][..n - 1] && b[..n - 1] == b[..n][..n - 1];
      assert a[n - 1] == a[..n][n - 1];
      UnionAgree(a, b, n - 1);
    }
  }

  lemma {:induction false} UnionMember(blocks: seq<set<object>>, n: nat, j: nat)
    requires j < n <= |blocks|
    ensures blocks[j] <= Union(blocks, n)
  {
    if j < n - 1 {
      UnionMember(blocks, n - 1, j);
    }
  }

  lemma {:induction false} UnionMonotone(blocks: seq<set<object>>, n: nat, m: nat)
    requires n <= m <= |blocks|
    ensures Union(blocks, n) <= Union(blocks, m)
  {
    if n < m {
      UnionMonotone(blocks, n, m - 1);
    }
  }

  lemma {:induction false} UnionSeparated(blocks: seq<set<object>>, n: nat, j: nat)
    requires n <= j < |blocks| && Separated(blocks)
    ensures blocks[j] !! Union(blocks, n)
  {
    if n > 0 {
      UnionSeparated(blocks, n - 1, j);
      assert blocks[n - 1] !! blocks[j];
    }
  }

  /** The processor is out of VMX operation. */
  ghost predicate Quiet(cpu: Processor)
    reads cpu
  {
    !cpu.launched && !cpu.vmxOn
  }

  /** The processor runs as a guest with pd as its processor data. */
  ghost predicate RunsOn(cpu: Processor, pd: ProcessorData)
    reads cpu
  {
    cpu.launched && cpu.vmxOn && cpu.vmmData == pd
  }

  /** pd refers to shared and its allocations are block. */
  ghost predicate Shares(pd: ProcessorData, shared: SharedProcessorData, block: set<object>)
    reads pd
  {
    pd.sharedData == shared && pd.Distinct() && pd.All() == block
  }

  /** The first |pds| processors run as guests on the blocks pds; the rest
      are out of VMX operation. */
  ghost predicate Running(cpus: seq<Processor>, pds: seq<ProcessorData>)
    reads cpus
  {
    && |pds| <= |cpus|
    && forall j :: 0 <= j < |cpus| ==> if j < |pds| then RunsOn(cpus[j], pds[j]) else Quiet(cpus[j])
  }

  /** Every block refers to shared and its allocations are blocks. */
  ghost predicate Sharing(shared: SharedProcessorData, pds: seq<ProcessorData>, blocks: seq<set<object>>)
    reads pds
  {
    && |pds| == |blocks|
    && forall j :: 0 <= j < |pds| ==> Shares(pds[j], shared, blocks[j])
  }

  /** How the blocks of a start attempt lie in the live allocations: apart
      from each other and from the shared block footprint, which is live
      while the count of references to it, at least one per block, is
      positive. */
  ghost predicate Layout(blocks: seq<set<object>>, live: set<object>, footprint: set<object>, count: int)
  {
    && Separated(blocks)
    && Union(blocks, |blocks|) <= live
    && Union(blocks, |blocks|) !! footprint
    && |blocks| <= count
    && (|blocks| > 0 ==> footprint <= live)
  }

  /** The state after an attempt to start the first |pds| processors. */
  ghost predicate Started(k: Kernel, cpus: seq<Processor>, shared: SharedProcessorData,
                          pds: seq<ProcessorData>, blocks: seq<set<object>>)
    reads k, cpus, pds, shared
  {
    && Running(cpus, pds) && Sharing(shared, pds, blocks)
    && Layout(blocks, k.live, shared.Footprint(), shared.referenceCount)
  }

  /** UtilForEachProcessor(VmpStopVM): stops the processors in order and
      ends at the first whose hypercall fails. After a start attempt that
      is the first processor not started, so every started processor is
      stopped, its block freed and its reference dropped; the shared block
      goes with the last reference. */
  method StopAll(k: Kernel, cpus: seq<Processor>, shared: SharedProcessorData,
                 ghost pds: seq<ProcessorData>, ghost blocks: seq<set<object>>) returns (ok: bool)
    requires DistinctCpus(cpus) && Started(k, cpus, shared, pds, blocks)
    modifies k, shared, cpus
    ensures ok <==> |pds| == |cpus|
    ensures forall j :: 0 <= j < |cpus| ==> Quiet(cpus[j])
    ensures shared.referenceCount == old(shared.referenceCount) - |pds|
    ensures shared.msrBitmap == old(shared.msrBitmap) && shared.sharedShData == old(shared.sharedShData)
    ensures k.live == old(k.live) - Union(blocks, |blocks|) -
                      (if |pds| > 0 && old(shared.referenceCount) == |pds| then shared.Footprint() else {})
  {
    ghost var footprint, origin, count := shared.Footprint(), k.live, shared.referenceCount;
    assert Layout(blocks, origin, footprint, count);
    var i := 0;
    ok := true;
    while ok && i < |cpus|
      invariant !ok ==> i == |pds| < |cpus|
      invariant Stopping(k, cpus, shared, pds, blocks, i, footprint, origin, count)
      invariant shared.msrBitmap == old(shared.msrBitmap) && shared.sharedShData == old(shared.sharedShData)
    {
      if cpus[i].launched {
        StopNext(k, cpus, shared, pds, blocks, i, footprint, origin, count);
        i := i + 1;
      } else {
        ok := StopVm(k, cpus[i]);
      }
    }
    assert i == |blocks|;
  }

  /** What StopAll keeps while it walks the processors: the first i are
      stopped and their blocks freed, the started ones after them still run. */
  ghost predicate Stopping(k: Kernel, cpus: seq<Processor>, shared: SharedProcessorData,
                           pds: seq<ProcessorData>, blocks: seq<set<object>>, i: nat,
                           footprint: set<object>, origin: set<object>, count: int)
    reads k, cpus, shared
  {
    && i <= |pds| == |blocks| <= |cpus|
    && (forall j :: 0 <= j < |cpus| ==> if i <= j < |pds| then RunsOn(cpus[j], pds[j]) else Quiet(cpus[j]))
    && shared.referenceCount == count - i && shared.Footprint() == footprint
    && k.live == origin - Union(blocks, i) - (if i > 0 && count == i then footprint else {})
  }

  lemma LiveStep(origin: set<object>, blocks: seq<set<object>>, i: nat, footprint: set<object>,
                 before: set<object>, after: set<object>, count: int, countAfter: int)
    requires i < |blocks| && before == origin - Union(blocks, i) && countAfter == count - i - 1
    requires after == before - blocks[i] - (if countAfter == 0 then footprint else {})
    ensures after == origin - Union(blocks, i + 1) - (if i + 1 > 0 && count == i + 1 then footprint else {})
  {
  }

  /** One step of StopAll: stops processor i, the first still running. */
  method StopNext(k: Kernel, cpus: seq<Processor>, shared: SharedProcessorData,
                  ghost pds: seq<ProcessorData>, ghost blocks: seq<set<object>>, i: nat,
                  ghost footprint: set<object>, ghost origin: set<object>, ghost count: int)
    requires DistinctCpus(cpus) && Stopping(k, cpus, shared, pds, blocks, i, footprint, origin, count)
    requires i < |pds| && Layout(blocks, origin, footprint, count)
    requires Sharing(shared, pds, blocks)
    modifies k, shared, cpus[i]
    ensures Stopping(k, cpus, shared, pds, blocks, i + 1, footprint, origin, count)
    ensures shared.msrBitmap == old(shared.msrBitmap) && shared.sharedShData == old(shared.sharedShData)
  {
    StopStarted(k, cpus[i], pds[i], shared, blocks, i, footprint, origin, count);
    assert forall j :: 0 <= j < |cpus| && j != i ==> cpus[j] != cpus[i];
  }

  /** StopVm on the processor at index i of a start attempt, which runs
      on block pd: the allocations freed so far grow by its block, and the
      shared block goes when its reference was the last. */
  method StopStarted(k: Kernel, cpu: Processor, ghost pd: ProcessorData, shared: SharedProcessorData,
                     ghost blocks: seq<set<object>>, ghost i: nat, ghost footprint: set<object>,
                     ghost origin: set<object>, ghost count: int)
    requires i < |blocks| && RunsOn(cpu, pd) && Shares(pd, shared, blocks[i]) && Layout(blocks, origin, footprint, count)
    requires shared.Footprint() == footprint && shared.referenceCount == count - i
    requires k.live == origin - Union(blocks, i)
    modifies k, shared, cpu
    ensures Quiet(cpu)
    ensures shared.referenceCount == count - i - 1
    ensures shared.msrBitmap == old(shared.msrBitmap) && shared.sharedShData == old(shared.sharedShData)
    ensures shared.Footprint() == footprint
    ensures k.live == origin - Union(blocks, i + 1) - (if count == i + 1 then footprint else {})
  {
    UnionMember(blocks, |blocks|, i);
    UnionSeparated(blocks, i, i);
    UnionMonotone(blocks, i, |blocks|);
    assert pd.Owned(k);
    ghost var before := k.live;
    var stopped := StopVm(k, cpu);
    LiveStep(origin, blocks, i, footprint, before, k.live, count, shared.referenceCount);
  }

  /** UtilForEachProcessor(VmpStartVM): brings the processors up in order
      and ends at the first that is not virtualized (VmpStartVM then
      returns STATUS_UNSUCCESSFUL). The processors before it run as guests
      on fresh blocks holding one reference each. */
  method StartAll(k: Kernel, cpus: seq<Processor>, shared: SharedProcessorData, outcomes: seq<BringUp>)
    returns (ok: bool, ghost pds: seq<ProcessorData>, ghost blocks: seq<set<object>>)
    requires DistinctCpus(cpus) && |outcomes| == |cpus|
    requires forall j :: 0 <= j < |cpus| ==> Quiet(cpus[j])
    requires shared.referenceCount >= 0 && shared.Footprint() <= k.live
    modifies k, shared, cpus
    ensures ok <==> FirstFailure(outcomes) == |cpus|
    ensures |pds| == FirstFailure(outcomes)
    ensures Started(k, cpus, shared, pds, blocks)
    ensures Union(blocks, |blocks|) !! old(k.live)
    ensures shared.referenceCount == old(shared.referenceCount) + |pds|
    ensures shared.msrBitmap == old(shared.msrBitmap) && shared.sharedShData == old(shared.sharedShData)
    ensures k.live == old(k.live) + Union(blocks, |blocks|) -
                      (if !ok && Allocated(outcomes[|pds|]) && old(shared.referenceCount) + |pds| == 0
                       then shared.Footprint() else {})
  {
    pds, blocks := [], [];
    ghost var origin, count := k.live, shared.referenceCount;
    assert Booting(k, cpus, shared, outcomes, pds, blocks, origin, count);
    var i := 0;
    while i < |cpus|
      invariant i == |pds|
      invariant Booting(k, cpus, shared, outcomes, pds, blocks, origin, count)
      invariant shared.msrBitmap == old(shared.msrBitmap) && shared.sharedShData == old(shared.sharedShData)
    {
      ok, pds, blocks := StartNext(k, cpus, shared, outcomes, i, pds, blocks, origin, count);
      if !ok {
        return;
      }
      i := i + 1;
    }
    ok := true;
  }

  /** What StartAll keeps while it walks the processors: the first |pds|
      were virtualized, each on a fresh block with a reference on shared. */
  ghost predicate Booting(k: Kernel, cpus: seq<Processor>, shared: SharedProcessorData, outcomes: seq<BringUp>,
                          pds: seq<ProcessorData>, blocks: seq<set<object>>, origin: set<object>, count: int)
    reads k, cpus, pds, shared
  {
    && |outcomes| == |cpus|
    && Started(k, cpus, shared, pds, blocks)
    && |pds| <= FirstFailure(outcomes)
    && Union(blocks, |blocks|) !! origin
    && count >= 0 && shared.referenceCount == count + |pds|
    && k.live == origin + Union(blocks, |blocks|)
  }

  /** Adding a fresh block to the blocks of a start attempt keeps their
      layout; the new block holds one more reference. */
  lemma AppendBlock(blocks: seq<set<object>>, block: set<object>, origin: set<object>,
                    before: set<object>, after: set<object>, footprint: set<object>, count: int)
    requires Layout(blocks, before, footprint, count) && footprint <= before
    requires before == origin + Union(blocks, |blocks|) && Union(blocks, |blocks|) !! origin
    requires block !! before && after == before + block
    ensures Layout(blocks + [block], after, footprint, count + 1)
    ensures after == origin + Union(blocks + [block], |blocks| + 1)
    ensures Union(blocks + [block], |blocks| + 1) !! origin
  {
    var n := |blocks|;
    var blocks' := blocks + [block];
    UnionAgree(blocks, blocks', n);
    forall j | 0 <= j < n
      ensures blocks'[j] !! block
    {
      UnionMember(blocks, n, j);
    }
  }

  /** The bookkeeping of StartNext after processor |pds| came up on pd. */
  lemma Admitted(k: Kernel, cpus: seq<Processor>, shared: SharedProcessorData, outcomes: seq<BringUp>,
                 pds: seq<ProcessorData>, blocks: seq<set<object>>, pd: ProcessorData,
                 origin: set<object>, count: int, before: set<object>, footprint: set<object>)
    requires |outcomes| == |cpus| && |pds| < FirstFailure(outcomes)
    requires Running(cpus, pds + [pd]) && Sharing(shared, pds, blocks) && Shares(pd, shared, pd.All())
    requires Layout(blocks, before, footprint, count + |pds|) && footprint <= before
    requires footprint == shared.Footprint()
    requires before == origin + Union(blocks, |blocks|) && Union(blocks, |blocks|) !! origin
    requires pd.All() !! before && k.live == before + pd.All()
    requires count >= 0 && shared.referenceCount == count + |pds| + 1
    ensures Booting(k, cpus, shared, outcomes, pds + [pd], blocks + [pd.All()], origin, count)
  {
    AppendBlock(blocks, pd.All(), origin, before, k.live, footprint, count + |pds|);
    assert Sharing(shared, pds + [pd], blocks + [pd.All()]) by {
      forall j | 0 <= j < |pds| + 1
        ensures Shares((pds + [pd])[j], shared, (blocks + [pd.All()])[j])
      {
        if j < |pds| {
          assert (pds + [pd])[j] == pds[j] && (blocks + [pd.All()])[j] == blocks[j];
        }
      }
    }
  }

  /** The state StartAll stops in when processor |pds| was not virtualized:
      the ones before it still run, and the shared block has gone when its
      reference from the failed processor would have been its first. */
  ghost predicate Refused(k: Kernel, cpus: seq<Processor>, shared: SharedProcessorData, outcomes: seq<BringUp>,
                          pds: seq<ProcessorData>, blocks: seq<set<object>>, origin: set<object>, count: int)
    reads k, cpus, pds, shared
  {
    && |pds| < |outcomes|
    && Started(k, cpus, shared, pds, blocks)
    && shared.referenceCount == count + |pds|
    && k.live == origin + Union(blocks, |blocks|) -
                 (if Allocated(outcomes[|pds|]) && count + |pds| == 0 then shared.Footprint() else {})
  }

  /** The bookkeeping of StartNext after processor |pds| failed to come up. */
  lemma Rejected(k: Kernel, cpus: seq<Processor>, shared: SharedProcessorData, outcomes: seq<BringUp>,
                 pds: seq<ProcessorData>, blocks: seq<set<object>>,
                 origin: set<object>, count: int, before: set<object>, footprint: set<object>)
    requires |pds| < |outcomes| && Running(cpus, pds) && Sharing(shared, pds, blocks)
    requires Layout(blocks, before, footprint, count + |pds|) && footprint == shared.Footprint()
    requires before == origin + Union(blocks, |blocks|) && count >= 0
    requires k.live == before - (if Allocated(outcomes[|pds|]) && count + |pds| == 0 then footprint else {})
    requires shared.referenceCount == count + |pds|
    ensures Refused(k, cpus, shared, outcomes, pds, blocks, origin, count)
  {
  }

  /** VmpStartVM: runs VmpInitializeVm on the processor and reports
      whether it came out virtualized (STATUS_UNSUCCESSFUL otherwise). */
  method StartVm(k: Kernel, cpu: Processor, shared: SharedProcessorData, o: BringUp) returns (ok: bool)
    requires Quiet(cpu)
    requires shared.referenceCount >= 0 && shared.Footprint() <= k.live
    modifies k, cpu, shared
    ensures ok == cpu.launched == Virtualizes(o)
    ensures shared.msrBitmap == old(shared.msrBitmap) && shared.sharedShData == old(shared.sharedShData)
    ensures ok ==>
              && cpu.vmmData != null && RunsOn(cpu, cpu.vmmData)
              && Shares(cpu.vmmData, shared, cpu.vmmData.All())
              && cpu.vmmData.All() !! old(k.live)
              && shared.referenceCount == old(shared.referenceCount) + 1
              && k.live == old(k.live) + cpu.vmmData.All()
    ensures !ok ==>
              && Quiet(cpu)
              && shared.referenceCount == old(shared.referenceCount)
              && k.live == old(k.live) -
                   (if Allocated(o) && old(shared.referenceCount) == 0 then old(shared.Footprint()) else {})
  {
    InitializeVm(k, cpu, shared, o);
    ok := cpu.launched;
  }

  /** One step of StartAll: VmpStartVM on processor i, the first not yet
      started. ok is whether it ends up virtualized. */
  method StartNext(k: Kernel, cpus: seq<Processor>, shared: SharedProcessorData, outcomes: seq<BringUp>, i: nat,
                   ghost pds: seq<ProcessorData>, ghost blocks: seq<set<object>>,
                   ghost origin: set<object>, ghost count: int)
    returns (ok: bool, ghost pds': seq<ProcessorData>, ghost blocks': seq<set<object>>)
    requires DistinctCpus(cpus) && Booting(k, cpus, shared, outcomes, pds, blocks, origin, count)
    requires i == |pds| < |cpus| && shared.Footprint() <= origin
    modifies k, shared, cpus[i]
    ensures shared.msrBitmap == old(shared.msrBitmap) && shared.sharedShData == old(shared.sharedShData)
    ensures ok == Virtualizes(outcomes[i])
    ensures ok ==> |pds'| == i + 1 && Booting(k, cpus, shared, outcomes, pds', blocks', origin, count)
    ensures !ok ==> pds' == pds && blocks' == blocks && Refused(k, cpus, shared, outcomes, pds, blocks, origin, count)
  {
    ghost var footprint := shared.Footprint();
    ok := StartVm(k, cpus[i], shared, outcomes[i]);
    assert shared.Footprint() == footprint;
    assert forall j :: 0 <= j < |cpus| && j != i ==> cpus[j] != cpus[i];
    if ok {
      ghost var pd := cpus[i].vmmData;
      pds', blocks' := pds + [pd], blocks + [pd.All()];
      assert Running(cpus, pds');
      Admitted(k, cpus, shared, outcomes, pds, blocks, pd, origin, count, old(k.live), footprint);
    } else {
      pds', blocks' := pds, blocks;
      assert Running(cpus, pds');
      Rejected(k, cpus, shared, outcomes, pds, blocks, origin, count, old(k.live), footprint);
    }
  }
}
