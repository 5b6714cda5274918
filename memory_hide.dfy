/** The EPT memory-hiding engine of NoTruth/MemoryHide.cpp.

    A hidden page has three machine-page variants: one shown to instruction
    fetches, one shown to data reads and the original page. The engine keeps
    an ordered list of records (ShareDataContainer::UserModeList, shared by
    all processors), one slot per processor holding the record whose
    permissions must be reverted after one single-stepped instruction
    (HiddenData::UserModeBackup), the processor's EPT and the
    monitor-trap-flag bit of the processor-based VM-execution controls. */
module MemoryHide {
  import opened Base

  /** HideInformation: the record of one hidden page. Pointers are numbers,
      with 0 standing for null. */
  datatype HideInformation = HideInformation(
    proc: nat,                // owning process (PEPROCESS)
    patchAddress: nat,        // the hidden guest virtual address
    cr3: nat,                 // page-table root of proc at install time
    newPhysicalAddress: nat,  // guest-physical address matched against EPT faults
    paBaseForRw: nat,         // machine page shown to data reads
    paBaseForExec: nat,       // machine page shown to instruction fetches
    paBaseOriginalPage: nat,  // machine page shown once hiding is disabled
    mdl: nat)                 // memory descriptor list pinning the page

  /** The fields of an EPT page-table entry that the engine writes. */
  datatype EptEntry = EptEntry(read: bool, write: bool, execute: bool, pfn: nat)

  /** The five settings the engine installs for a record's EPT entry. */
  datatype HideState = ExecuteOnly | ReadOnly | ReadWriteExecute | ReadAndExecute | Disabled

  /** MmGetPhysicalAddress(va) evaluated while the given CR3 is loaded. */
  type PaLookup = (nat, nat) -> nat

  /** GetPhysicalAddressByNewCR3: the guest-physical address of va in the
      address space rooted at cr3, or 0 when either argument is 0. */
  function GuestPhysicalAddress(va: nat, cr3: nat, mmGetPa: PaLookup): nat
  {
    if cr3 != 0 && va != 0 then mmGetPa(va, cr3) else 0
  }

  /** The EPT entry (a guest page frame) that belongs to a record. */
  function GuestFrame(info: HideInformation, mmGetPa: PaLookup): nat
  {
    PageFrame(GuestPhysicalAddress(info.patchAddress, info.cr3, mmGetPa))
  }

  /** The entry each setting installs: which machine page backs the guest
      page, and the (read, write, execute) permissions. */
  function HideEntry(info: HideInformation, state: HideState): EptEntry
  {
    match state
    case ExecuteOnly => EptEntry(false, false, true, PageFrame(info.paBaseForExec))
    case ReadOnly => EptEntry(true, false, false, PageFrame(info.paBaseForRw))
    case ReadWriteExecute => EptEntry(true, true, true, PageFrame(info.paBaseForExec))
    case ReadAndExecute => EptEntry(true, false, true, PageFrame(info.paBaseForExec))
    case Disabled => EptEntry(true, true, true, PageFrame(info.paBaseOriginalPage))
  }

  function Permissions(e: EptEntry): (bool, bool, bool)
  {
    (e.read, e.write, e.execute)
  }

  /** The three machine pages of a record are different pages. */
  predicate DistinctVariants(info: HideInformation)
  {
    && PageFrame(info.paBaseForRw) != PageFrame(info.paBaseForExec)
    && PageFrame(info.paBaseOriginalPage) != PageFrame(info.paBaseForExec)
    && PageFrame(info.paBaseOriginalPage) != PageFrame(info.paBaseForRw)
  }

  /** The hiding guarantee of the permission table: the read variant is
      never writable or executable, the execute variant is readable only in
      the two transient settings, and only Disabled shows the original page. */
  lemma {:induction false} HideEntryExposure(info: HideInformation, state: HideState)
    requires DistinctVariants(info)
    ensures HideEntry(info, state).pfn == PageFrame(info.paBaseForRw) ==>
              Permissions(HideEntry(info, state)) == (true, false, false)
    ensures HideEntry(info, state).pfn == PageFrame(info.paBaseForExec) && HideEntry(info, state).read <==>
              state == ReadWriteExecute || state == ReadAndExecute
    ensures HideEntry(info, state).pfn == PageFrame(info.paBaseOriginalPage) <==> state == Disabled
  {
    match state
    case ExecuteOnly =>
    case ReadOnly =>
    case ReadWriteExecute =>
    case ReadAndExecute =>
    case Disabled =>
  }

  // ---------------------------------------------------------------------
  // State

  /** ShareDataContainer: the record list shared by all processors. */
  class ShareDataContainer {
    var userModeList: seq<HideInformation>

    constructor ()
      ensures userModeList == []
    {
      userModeList := [];
    }
  }

  /** HiddenData: the per-processor slot of the record awaiting an MTF revert. */
  class HiddenData {
    var userModeBackup: Option<HideInformation>

    constructor ()
      ensures userModeBackup == None
    {
      userModeBackup := None;
    }
  }

  /** The processor's EPT, as the entries it holds per guest page frame. */
  class EptData {
    var entries: map<nat, EptEntry>

    constructor (entries: map<nat, EptEntry>)
      ensures this.entries == entries
    {
      this.entries := entries;
    }
  }

  /** The primary processor-based VM-execution control field of the VMCS. */
  class Vmcs {
    var cpuBasedVmExecControl: bv32

    constructor (control: bv32)
      ensures cpuBasedVmExecControl == control
    {
      cpuBasedVmExecControl := control;
    }
  }

  /** Bit 27 of the primary processor-based controls: monitor trap flag. */
  const MonitorTrapFlag: bv32 := 0x0800_0000

  predicate MtfArmed(control: bv32)
  {
    control & MonitorTrapFlag != 0
  }

  /** The single-slot protocol: single-stepping is armed exactly when a
      record is waiting in the slot for its revert. */
  predicate SlotMatchesMtf(sh: HiddenData, vmcs: Vmcs)
    reads sh, vmcs
  {
    MtfArmed(vmcs.cpuBasedVmExecControl) <==> sh.userModeBackup.Some?
  }

  /** The hiding guarantee at the frame of one record: the page shown to
      instruction fetches is readable there only while single-stepping is
      armed, that is, for the one instruction before the revert. */
  ghost predicate ExecPageGuarded(ept: EptData, vmcs: Vmcs, info: HideInformation, mmGetPa: PaLookup)
    reads ept, vmcs
  {
    var f := GuestFrame(info, mmGetPa);
    f in ept.entries && ept.entries[f].pfn == PageFrame(info.paBaseForExec) && ept.entries[f].read ==>
      MtfArmed(vmcs.cpuBasedVmExecControl)
  }

  // ---------------------------------------------------------------------
  // Record lookup

  /** The search keys the source uses: the page of patch_address, the page
      of NewPhysicalAddress, and the owning process. */
  datatype Key = VaPage(va: nat) | PaPage(pa: nat) | Process(p: nat)

  predicate Matches(info: HideInformation, key: Key)
  {
    match key
    case VaPage(va) => SamePage(info.patchAddress, va)
    case PaPage(pa) => SamePage(info.newPhysicalAddress, pa)
    case Process(p) => info.proc == p
  }

  /** The position of the first record, in list order, that matches key. */
  function FirstMatch(list: seq<HideInformation>, key: Key): (r: Option<nat>)
    ensures r.Some? ==> r.value < |list| && Matches(list[r.value], key)
    ensures r.Some? ==> forall j :: 0 <= j < r.value ==> !Matches(list[j], key)
    ensures r.None? <==> forall j :: 0 <= j < |list| ==> !Matches(list[j], key)
  {
    if |list| == 0 then None
    else if Matches(list[0], key) then Some(0)
    else match FirstMatch(list[1..], key)
      case None => None
      case Some(i) => Some(i + 1)
  }

  function Lookup(list: seq<HideInformation>, key: Key): Option<HideInformation>
  {
    match FirstMatch(list, key)
    case None => None
    case Some(i) => Some(list[i])
  }

  /** Appending a record leaves an earlier match in place, and otherwise
      the new record is found exactly when it matches. */
  lemma {:induction false} FirstMatchAppend(list: seq<HideInformation>, x: HideInformation, key: Key)
    ensures FirstMatch(list + [x], key) ==
              if FirstMatch(list, key).Some? then FirstMatch(list, key)
              else if Matches(x, key) then Some(|list|)
              else None
  {
    if |list| > 0 {
      assert (list + [x])[1..] == list[1..] + [x];
      FirstMatchAppend(list[1..], x, key);
    }
  }

  /** std::find_if over UserModeList. */
  method FindIndex(list: seq<HideInformation>, key: Key) returns (index: Option<nat>)
    ensures index == FirstMatch(list, key)
  {
    var i := 0;
    while i < |list|
      invariant 0 <= i <= |list|
      invariant forall j :: 0 <= j < i ==> !Matches(list[j], key)
    {
      if Matches(list[i], key) {
        FirstMatchMinimal(list, key, i);
        return Some(i);
      }
      i := i + 1;
    }
    return None;
  }

  /** A matching position with no match before it is the first match. */
  lemma FirstMatchMinimal(list: seq<HideInformation>, key: Key, i: nat)
    requires i < |list| && Matches(list[i], key)
    requires forall j :: 0 <= j < i ==> !Matches(list[j], key)
    ensures FirstMatch(list, key) == Some(i)
  {
    var r := FirstMatch(list, key);
    assert r.Some?;
    assert !(r.value < i);
    assert !(i < r.value);
  }

  /** TruthFindHideInfoByVaAddr: the first record on the page of address. */
  method FindHideInfoByVaAddr(shared: ShareDataContainer, address: nat) returns (found: Option<HideInformation>)
    ensures found == Lookup(shared.userModeList, VaPage(address))
  {
    var index := FindIndex(shared.userModeList, VaPage(address));
    found := if index.Some? then Some(shared.userModeList[index.value]) else None;
  }

  /** TruthFindHideInfoByPhyAddr: the first record whose NewPhysicalAddress
      lies on the page of fault_pa. */
  method FindHideInfoByPhyAddr(shared: ShareDataContainer, faultPa: nat) returns (found: Option<HideInformation>)
    ensures found == Lookup(shared.userModeList, PaPage(faultPa))
  {
    var index := FindIndex(shared.userModeList, PaPage(faultPa));
    found := if index.Some? then Some(shared.userModeList[index.value]) else None;
  }

  /** TruthGetHideMDL: the MDL of the first record of proc, or null (0). */
  method GetHideMdl(shared: ShareDataContainer, proc: nat) returns (mdl: nat)
    ensures Lookup(shared.userModeList, Process(proc)).Some? ==>
              mdl == Lookup(shared.userModeList, Process(proc)).value.mdl
    ensures Lookup(shared.userModeList, Process(proc)).None? ==> mdl == 0
  {
    var list := shared.userModeList;
    var i := 0;
    while i < |list|
      invariant 0 <= i <= |list|
      invariant forall j :: 0 <= j < i ==> list[j].proc != proc
    {
      if list[i].proc == proc {
        FirstMatchMinimal(list, Process(proc), i);
        return list[i].mdl;
      }
      i := i + 1;
    }
    return 0;
  }

  // ---------------------------------------------------------------------
  // EPT entry writes

  /** ModifyEPTEntryRWX: rewrites the entry of the guest page holding
      guestPa and no other. */
  method ModifyEptEntryRwx(ept: EptData, guestPa: nat, machinePa: nat, read: bool, write: bool, execute: bool)
    modifies ept
    ensures ept.entries == old(ept.entries)[PageFrame(guestPa) := EptEntry(read, write, execute, PageFrame(machinePa))]
  {
    ept.entries := ept.entries[PageFrame(guestPa) := EptEntry(read, write, execute, PageFrame(machinePa))];
  }

  /** TruthEnableEntryForExecuteOnly: the resting, hidden setting. */
  method EnableEntryForExecuteOnly(info: HideInformation, ept: EptData, mmGetPa: PaLookup)
    modifies ept
    ensures ept.entries == old(ept.entries)[GuestFrame(info, mmGetPa) := HideEntry(info, ExecuteOnly)]
  {
    var newPa := GuestPhysicalAddress(info.patchAddress, info.cr3, mmGetPa);
    ModifyEptEntryRwx(ept, newPa, info.paBaseForExec, false, false, true);
  }

  /** TruthEnableEntryForAll: the setting installed on a write fault. */
  method EnableEntryForAll(info: HideInformation, ept: EptData, mmGetPa: PaLookup)
    modifies ept
    ensures ept.entries == old(ept.entries)[GuestFrame(info, mmGetPa) := HideEntry(info, ReadWriteExecute)]
  {
    var newPa := GuestPhysicalAddress(info.patchAddress, info.cr3, mmGetPa);
    ModifyEptEntryRwx(ept, newPa, info.paBaseForExec, true, true, true);
  }

  /** TruthEnableEntryForReadOnly: the setting installed on a read fault. */
  method EnableEntryForReadOnly(info: HideInformation, ept: EptData, mmGetPa: PaLookup)
    modifies ept
    ensures ept.entries == old(ept.entries)[GuestFrame(info, mmGetPa) := HideEntry(info, ReadOnly)]
  {
    var newPa := GuestPhysicalAddress(info.patchAddress, info.cr3, mmGetPa);
    ModifyEptEntryRwx(ept, newPa, info.paBaseForRw, true, false, false);
  }

  /** TruthEnableEntryForReadAndExec: the setting installed on an execute fault. */
  method EnableEntryForReadAndExec(info: HideInformation, ept: EptData, mmGetPa: PaLookup)
    modifies ept
    ensures ept.entries == old(ept.entries)[GuestFrame(info, mmGetPa) := HideEntry(info, ReadAndExecute)]
  {
    var newPa := GuestPhysicalAddress(info.patchAddress, info.cr3, mmGetPa);
    ModifyEptEntryRwx(ept, newPa, info.paBaseForExec, true, false, true);
  }

  /** TruthDisableVarHiding: back to the original page with full access. */
  method DisableVarHiding(info: HideInformation, ept: EptData, mmGetPa: PaLookup)
    modifies ept
    ensures ept.entries == old(ept.entries)[GuestFrame(info, mmGetPa) := HideEntry(info, Disabled)]
  {
    var newPa := GuestPhysicalAddress(info.patchAddress, info.cr3, mmGetPa);
    ModifyEptEntryRwx(ept, newPa, info.paBaseOriginalPage, true, true, true);
  }

  // ---------------------------------------------------------------------
  // Single slot and monitor trap flag

  /** The control word with bit 27 set (enable) or cleared, every other bit kept. */
  function WithMonitorTrapFlag(control: bv32, enable: bool): (r: bv32)
    ensures MtfArmed(r) == enable
    ensures r & !MonitorTrapFlag == control & !MonitorTrapFlag
  {
    if enable then control | MonitorTrapFlag else control & !MonitorTrapFlag
  }

  /** TruthSetMonitorTrapFlag: a read-modify-write of the control field. */
  method SetMonitorTrapFlag(vmcs: Vmcs, enable: bool)
    modifies vmcs
    ensures vmcs.cpuBasedVmExecControl == WithMonitorTrapFlag(old(vmcs.cpuBasedVmExecControl), enable)
  {
    vmcs.cpuBasedVmExecControl := WithMonitorTrapFlag(vmcs.cpuBasedVmExecControl, enable);
  }

  /** TruthSaveLastHideInfo: the slot must be empty (NT_ASSERT). */
  method SaveLastHideInfo(sh: HiddenData, info: HideInformation)
    requires sh.userModeBackup == None
    modifies sh
    ensures sh.userModeBackup == Some(info)
  {
    sh.userModeBackup := Some(info);
  }

  /** TruthRestoreLastHideInfo: the slot must be full (NT_ASSERT); empties it. */
  method RestoreLastHideInfo(sh: HiddenData) returns (info: HideInformation)
    requires sh.userModeBackup.Some?
    modifies sh
    ensures info == old(sh.userModeBackup).value
    ensures sh.userModeBackup == None
  {
    info := sh.userModeBackup.value;
    sh.userModeBackup := None;
  }

  // ---------------------------------------------------------------------
  // Fault handlers

  /** The setting an EPT violation installs: a read is tested first, then
      a write, then an execute; with no access bit nothing is installed. */
  function FaultState(isExecute: bool, isWrite: bool, isRead: bool): Option<HideState>
  {
    if isRead then Some(ReadOnly)
    else if isWrite then Some(ReadWriteExecute)
    else if isExecute then Some(ReadAndExecute)
    else None
  }

  /** Whether a handled violation arms single-stepping and fills the slot:
      always for a write or execute, and for a read only when the faulting
      instruction is not on the page it reads. */
  predicate ArmsRevert(isExecute: bool, isWrite: bool, isRead: bool, guestRip: nat, faultVa: nat)
  {
    if isRead then !SamePage(guestRip, faultVa) else isWrite || isExecute
  }

  /** TruthHandleEptViolation. It declines (false, nothing changed) when the
      container is null or no record's NewPhysicalAddress is on the faulting
      page; otherwise it installs the setting for the access kind on the
      first such record, arms the revert when required, and returns true. */
  method HandleEptViolation(sh: HiddenData, shared: ShareDataContainer?, ept: EptData, vmcs: Vmcs,
                            mmGetPa: PaLookup, guestRip: nat, faultVa: nat, faultPa: nat,
                            isExecute: bool, isWrite: bool, isRead: bool)
    returns (handled: bool)
    requires (shared != null && Lookup(shared.userModeList, PaPage(faultPa)).Some? &&
              ArmsRevert(isExecute, isWrite, isRead, guestRip, faultVa)) ==> sh.userModeBackup == None
    modifies sh, ept, vmcs
    ensures handled <==> shared != null && Lookup(shared.userModeList, PaPage(faultPa)).Some?
    ensures !handled ==> unchanged(sh, ept, vmcs)
    ensures handled ==>
      var info := Lookup(shared.userModeList, PaPage(faultPa)).value;
      var arms := ArmsRevert(isExecute, isWrite, isRead, guestRip, faultVa);
      && ept.entries == (match FaultState(isExecute, isWrite, isRead)
                         case None => old(ept.entries)
                         case Some(s) => old(ept.entries)[GuestFrame(info, mmGetPa) := HideEntry(info, s)])
      && sh.userModeBackup == (if arms then Some(info) else old(sh.userModeBackup))
      && vmcs.cpuBasedVmExecControl == (if arms then WithMonitorTrapFlag(old(vmcs.cpuBasedVmExecControl), true)
                                        else old(vmcs.cpuBasedVmExecControl))
    ensures old(SlotMatchesMtf(sh, vmcs)) ==> SlotMatchesMtf(sh, vmcs)
    ensures handled && FaultState(isExecute, isWrite, isRead).Some? ==>
      var info := Lookup(shared.userModeList, PaPage(faultPa)).value;
      DistinctVariants(info) ==> ExecPageGuarded(ept, vmcs, info, mmGetPa)
  {
    if shared == null {
      return false;
    }
    var found := FindHideInfoByPhyAddr(shared, faultPa);
    if found.None? {
      return false;
    }
    var info := found.value;
    if DistinctVariants(info) && FaultState(isExecute, isWrite, isRead).Some? {
      HideEntryExposure(info, FaultState(isExecute, isWrite, isRead).value);
    }
    if isRead {
      EnableEntryForReadOnly(info, ept, mmGetPa);
      if !SamePage(guestRip, faultVa) {
        SetMonitorTrapFlag(vmcs, true);
        SaveLastHideInfo(sh, info);
      }
    } else if isWrite {
      EnableEntryForAll(info, ept, mmGetPa);
      SetMonitorTrapFlag(vmcs, true);
      SaveLastHideInfo(sh, info);
    } else if isExecute {
      EnableEntryForReadAndExec(info, ept, mmGetPa);
      SetMonitorTrapFlag(vmcs, true);
      SaveLastHideInfo(sh, info);
    }
    return true;
  }

  /** TruthHandleMonitorTrapFlag: takes the record out of the slot,
      reinstalls execute-only for it and clears the monitor trap flag. The
      container must be non-null (NT_VERIFY) and the slot full (NT_ASSERT). */
  method HandleMonitorTrapFlag(sh: HiddenData, shared: ShareDataContainer?, ept: EptData, vmcs: Vmcs, mmGetPa: PaLookup)
    requires shared != null
    requires sh.userModeBackup.Some?
    modifies sh, ept, vmcs
    ensures sh.userModeBackup == None
    ensures ept.entries == old(ept.entries)[GuestFrame(old(sh.userModeBackup).value, mmGetPa) :=
                                            HideEntry(old(sh.userModeBackup).value, ExecuteOnly)]
    ensures vmcs.cpuBasedVmExecControl == WithMonitorTrapFlag(old(vmcs.cpuBasedVmExecControl), false)
    ensures SlotMatchesMtf(sh, vmcs)
    ensures ExecPageGuarded(ept, vmcs, old(sh.userModeBackup).value, mmGetPa)
  {
    var info := RestoreLastHideInfo(sh);
    EnableEntryForExecuteOnly(info, ept, mmGetPa);
    SetMonitorTrapFlag(vmcs, false);
  }

  // ---------------------------------------------------------------------
  // Bulk EPT updates

  /** The EPT after installing `state` for every record of list, in list
      order (a later record on the same guest frame overwrites an earlier one). */
  function ApplyAll(m: map<nat, EptEntry>, list: seq<HideInformation>, state: HideState, mmGetPa: PaLookup): map<nat, EptEntry>
    decreases |list|
  {
    if list == [] then m
    else
      var last := list[|list| - 1];
      ApplyAll(m, list[..|list| - 1], state, mmGetPa)[GuestFrame(last, mmGetPa) := HideEntry(last, state)]
  }

  /** The guest frames a list of records touches. */
  ghost predicate TouchedBy(f: nat, list: seq<HideInformation>, mmGetPa: PaLookup)
  {
    exists i :: 0 <= i < |list| && GuestFrame(list[i], mmGetPa) == f
  }

  /** No two records share a guest frame. */
  ghost predicate DistinctFrames(list: seq<HideInformation>, mmGetPa: PaLookup)
  {
    forall i, j :: 0 <= i < j < |list| ==> GuestFrame(list[i], mmGetPa) != GuestFrame(list[j], mmGetPa)
  }

  /** After a bulk update every record's frame holds an entry with the
      setting's permissions. */
  lemma {:induction false} ApplyAllCovers(m: map<nat, EptEntry>, list: seq<HideInformation>, state: HideState, mmGetPa: PaLookup)
    ensures forall i :: 0 <= i < |list| ==>
              GuestFrame(list[i], mmGetPa) in ApplyAll(m, list, state, mmGetPa) &&
              Permissions(ApplyAll(m, list, state, mmGetPa)[GuestFrame(list[i], mmGetPa)]) ==
              Permissions(HideEntry(list[i], state))
    decreases |list|
  {
    if list != [] {
      var n := |list| - 1;
      var front := list[..n];
      ApplyAllCovers(m, front, state, mmGetPa);
      forall i | 0 <= i < n
        ensures list[i] == front[i]
      {
      }
    }
  }

  /** When no two records share a guest frame, a bulk update leaves each
      record's frame with exactly that record's entry. */
  lemma {:induction false} ApplyAllDistinct(m: map<nat, EptEntry>, list: seq<HideInformation>, state: HideState, mmGetPa: PaLookup)
    requires DistinctFrames(list, mmGetPa)
    ensures forall i :: 0 <= i < |list| ==>
              GuestFrame(list[i], mmGetPa) in ApplyAll(m, list, state, mmGetPa) &&
              ApplyAll(m, list, state, mmGetPa)[GuestFrame(list[i], mmGetPa)] == HideEntry(list[i], state)
    decreases |list|
  {
    if list != [] {
      var n := |list| - 1;
      var front := list[..n];
      assert DistinctFrames(front, mmGetPa) by {
        forall i, j | 0 <= i < j < |front|
          ensures GuestFrame(front[i], mmGetPa) != GuestFrame(front[j], mmGetPa)
        {
          assert front[i] == list[i] && front[j] == list[j];
        }
      }
      ApplyAllDistinct(m, front, state, mmGetPa);
      forall i | 0 <= i < n
        ensures list[i] == front[i] && GuestFrame(list[i], mmGetPa) != GuestFrame(list[n], mmGetPa)
      {
      }
    }
  }

  /** A bulk update touches no entry outside the records' frames and adds
      no frame other than theirs. */
  lemma {:induction false} ApplyAllFrame(m: map<nat, EptEntry>, list: seq<HideInformation>, state: HideState, mmGetPa: PaLookup)
    ensures forall f :: f in m && !TouchedBy(f, list, mmGetPa) ==>
              f in ApplyAll(m, list, state, mmGetPa) && ApplyAll(m, list, state, mmGetPa)[f] == m[f]
    ensures forall f :: f in ApplyAll(m, list, state, mmGetPa) ==> f in m || TouchedBy(f, list, mmGetPa)
    decreases |list|
  {
    if list != [] {
      var n := |list| - 1;
      var front := list[..n];
      ApplyAllFrame(m, front, state, mmGetPa);
      forall f | TouchedBy(f, front, mmGetPa)
        ensures TouchedBy(f, list, mmGetPa)
      {
        var i :| 0 <= i < |front| && GuestFrame(front[i], mmGetPa) == f;
        assert GuestFrame(list[i], mmGetPa) == f;
      }
      assert TouchedBy(GuestFrame(list[n], mmGetPa), list, mmGetPa);
    }
  }

  /** TruthEnableAllMemoryHide: execute-only for every record. */
  method EnableAllMemoryHide(ept: EptData, shared: ShareDataContainer, mmGetPa: PaLookup)
    modifies ept
    ensures ept.entries == ApplyAll(old(ept.entries), shared.userModeList, ExecuteOnly, mmGetPa)
  {
    var list := shared.userModeList;
    for i := 0 to |list|
      invariant ept.entries == ApplyAll(old(ept.entries), list[..i], ExecuteOnly, mmGetPa)
    {
      EnableEntryForExecuteOnly(list[i], ept, mmGetPa);
      assert list[..i + 1][..i] == list[..i];
    }
    assert list[..|list|] == list;
  }

  /** TruthDisableAllMemoryHide: the original page with full access for every record. */
  method DisableAllMemoryHide(ept: EptData, shared: ShareDataContainer, mmGetPa: PaLookup)
    modifies ept
    ensures ept.entries == ApplyAll(old(ept.entries), shared.userModeList, Disabled, mmGetPa)
  {
    var list := shared.userModeList;
    for i := 0 to |list|
      invariant ept.entries == ApplyAll(old(ept.entries), list[..i], Disabled, mmGetPa)
    {
      DisableVarHiding(list[i], ept, mmGetPa);
      assert list[..i + 1][..i] == list[..i];
    }
    assert list[..|list|] == list;
  }

  /** TruthDisableSingleMemoryHide: disables only the first record of proc;
      nothing changes when proc owns no record. */
  method DisableSingleMemoryHide(ept: EptData, shared: ShareDataContainer, proc: nat, mmGetPa: PaLookup)
    modifies ept
    ensures Lookup(shared.userModeList, Process(proc)).None? ==> ept.entries == old(ept.entries)
    ensures Lookup(shared.userModeList, Process(proc)).Some? ==>
              var info := Lookup(shared.userModeList, Process(proc)).value;
              ept.entries == old(ept.entries)[GuestFrame(info, mmGetPa) := HideEntry(info, Disabled)]
  {
    var list := shared.userModeList;
    var i := 0;
    while i < |list|
      invariant 0 <= i <= |list|
      invariant forall j :: 0 <= j < i ==> list[j].proc != proc
      invariant ept.entries == old(ept.entries)
    {
      if list[i].proc == proc {
        FirstMatchMinimal(list, Process(proc), i);
        DisableVarHiding(list[i], ept, mmGetPa);
        break;
      }
      i := i + 1;
    }
  }

  // ---------------------------------------------------------------------
  // Insertion and removal

  /** The list after installing info: unchanged when a record already
      covers info's virtual page (the key is the page only, not the
      process), otherwise info appended. */
  function Inserted(list: seq<HideInformation>, info: HideInformation): seq<HideInformation>
  {
    if FirstMatch(list, VaPage(info.patchAddress)).Some? then list else list + [info]
  }

  /** What TruthCreateNewHiddenNode returns as written for a non-null
      container: `info` has been moved into the vector before `!info` is
      tested, so the call reports success only when nothing was appended. */
  function CreateNewHiddenNodeResultAsWritten(list: seq<HideInformation>, info: HideInformation): bool
  {
    FirstMatch(list, VaPage(info.patchAddress)).Some?
  }

  /** The evident intent: a non-null container always accepts the install. */
  function CreateNewHiddenNodeResult(list: seq<HideInformation>, info: HideInformation): bool
  {
    true
  }

  /** The as-written result is false exactly when the record was appended. */
  lemma AsWrittenFailsExactlyWhenAppended(list: seq<HideInformation>, info: HideInformation)
    ensures !CreateNewHiddenNodeResultAsWritten(list, info) <==> Inserted(list, info) == list + [info]
  {
    if Inserted(list, info) == list + [info] {
      assert |Inserted(list, info)| == |list| + 1;
    }
  }

  /** Installing one record into an empty list appends it, yet the
      as-written call returns false while the corrected one returns true. */
  lemma CreateNewHiddenNodeCounterexample()
    ensures var info := HideInformation(4, 0x1000, 0x1aa000, 0x2000, 0x3000, 0x4000, 0x5000, 0);
            && Inserted([], info) == [info]
            && !CreateNewHiddenNodeResultAsWritten([], info)
            && CreateNewHiddenNodeResult([], info)
  {
  }

  /** No two records of the list lie on the same virtual page. */
  ghost predicate UniqueVaPages(list: seq<HideInformation>)
  {
    forall i, j :: 0 <= i < j < |list| ==> !SamePage(list[i].patchAddress, list[j].patchAddress)
  }

  /** Installing is idempotent, keeps virtual pages unique, adds at most one
      record, and afterwards the page of info is covered. */
  lemma {:induction false} InsertedProperties(list: seq<HideInformation>, info: HideInformation)
    ensures Inserted(Inserted(list, info), info) == Inserted(list, info)
    ensures UniqueVaPages(list) ==> UniqueVaPages(Inserted(list, info))
    ensures |list| <= |Inserted(list, info)| <= |list| + 1
    ensures Lookup(Inserted(list, info), VaPage(info.patchAddress)).Some?
    ensures forall i :: 0 <= i < |list| ==> Inserted(list, info)[i] == list[i]
  {
    var key := VaPage(info.patchAddress);
    FirstMatchAppend(list, info, key);
    assert Matches(info, key);
    if FirstMatch(list, key).None? {
      var l2 := list + [info];
      assert FirstMatch(l2, key) == Some(|list|);
      if UniqueVaPages(list) {
        forall i, j | 0 <= i < j < |l2|
          ensures !SamePage(l2[i].patchAddress, l2[j].patchAddress)
        {
          if j == |list| {
            assert !Matches(list[i], key);
          }
        }
      }
    }
  }

  /** Two processes hiding the same virtual page: the second install is
      absorbed by the first record, because the key ignores the process. */
  lemma SameVaFromTwoProcesses(a: HideInformation, b: HideInformation)
    requires a.proc != b.proc && SamePage(a.patchAddress, b.patchAddress)
    ensures Inserted(Inserted([], a), b) == [a]
  {
    assert Inserted([], a) == [a];
    assert Matches(a, VaPage(b.patchAddress));
  }

  /** TruthCreateNewHiddenNode as written: the same list update, but the
      result is the moved-from pointer's null test, so an install that
      appends reports failure. */
  method CreateNewHiddenNodeAsWritten(shared: ShareDataContainer?, info: HideInformation) returns (ok: bool)
    modifies shared
    ensures shared == null ==> !ok
    ensures shared != null ==> ok == CreateNewHiddenNodeResultAsWritten(old(shared.userModeList), info)
    ensures shared != null ==> shared.userModeList == Inserted(old(shared.userModeList), info)
  {
    if shared == null {
      return false;
    }
    var found := FindHideInfoByVaAddr(shared, info.patchAddress);
    if found.Some? {
      return true;
    }
    shared.userModeList := shared.userModeList + [info];
    var moved := true;  // info has been moved into the list, so it now tests null
    return !moved;
  }

  /** TruthCreateNewHiddenNode, with the result it evidently intends: false
      for a null container, true otherwise; the list gains info unless a
      record already covers its virtual page. */
  method CreateNewHiddenNode(shared: ShareDataContainer?, info: HideInformation) returns (ok: bool)
    modifies shared
    ensures shared == null ==> !ok
    ensures shared != null ==> ok == CreateNewHiddenNodeResult(old(shared.userModeList), info)
    ensures shared != null ==> shared.userModeList == Inserted(old(shared.userModeList), info)
  {
    if shared == null {
      return false;
    }
    var found := FindHideInfoByVaAddr(shared, info.patchAddress);
    if found.Some? {
      return true;
    }
    shared.userModeList := shared.userModeList + [info];
    return true;
  }

  /** The list with the first record matching key erased. */
  function RemoveFirst(list: seq<HideInformation>, key: Key): seq<HideInformation>
  {
    match FirstMatch(list, key)
    case None => list
    case Some(i) => list[..i] + list[i + 1..]
  }

  /** How many records of list match key. */
  function CountMatches(list: seq<HideInformation>, key: Key): nat
  {
    if list == [] then 0
    else (if Matches(list[0], key) then 1 else 0) + CountMatches(list[1..], key)
  }

  lemma {:induction false} CountMatchesSplit(a: seq<HideInformation>, b: seq<HideInformation>, key: Key)
    ensures CountMatches(a + b, key) == CountMatches(a, key) + CountMatches(b, key)
  {
    if a == [] {
      assert a + b == b;
    } else {
      assert (a + b)[0] == a[0];
      assert (a + b)[1..] == a[1..] + b;
      CountMatchesSplit(a[1..], b, key);
    }
  }

  /** Erasing the first match removes exactly one matching record when
      there is one (and nothing otherwise) and keeps every other record. */
  lemma {:induction false} RemoveFirstProperties(list: seq<HideInformation>, key: Key)
    ensures FirstMatch(list, key).None? ==> RemoveFirst(list, key) == list
    ensures FirstMatch(list, key).Some? ==>
              |RemoveFirst(list, key)| == |list| - 1 &&
              CountMatches(RemoveFirst(list, key), key) == CountMatches(list, key) - 1 &&
              multiset(RemoveFirst(list, key)) + multiset{list[FirstMatch(list, key).value]} == multiset(list)
  {
    match FirstMatch(list, key)
    case None =>
    case Some(i) =>
      assert list == list[..i] + [list[i]] + list[i + 1..];
      CountMatchesSplit(list[..i] + [list[i]], list[i + 1..], key);
      CountMatchesSplit(list[..i], [list[i]], key);
      CountMatchesSplit(list[..i], list[i + 1..], key);
      assert CountMatches([list[i]], key) == 1 by {
        assert [list[i]][1..] == [];
      }
  }

  /** TruthRemoveSingleHideNode: erases the first record of proc. */
  method RemoveSingleHideNode(shared: ShareDataContainer, proc: nat)
    modifies shared
    ensures shared.userModeList == RemoveFirst(old(shared.userModeList), Process(proc))
  {
    var list := shared.userModeList;
    var i := 0;
    while i < |list|
      invariant 0 <= i <= |list|
      invariant forall j :: 0 <= j < i ==> list[j].proc != proc
      invariant shared.userModeList == list
    {
      if list[i].proc == proc {
        FirstMatchMinimal(list, Process(proc), i);
        shared.userModeList := list[..i] + list[i + 1..];
        break;
      }
      i := i + 1;
    }
  }

  /** TruthRemoveAllHideNode: erases the records one at a time until the
      list is empty. */
  method RemoveAllHideNode(shared: ShareDataContainer)
    modifies shared
    ensures shared.userModeList == []
  {
    var n := |shared.userModeList|;
    for k := 0 to n
      invariant shared.userModeList == old(shared.userModeList)[k..]
    {
      shared.userModeList := shared.userModeList[1..];
    }
  }
}
