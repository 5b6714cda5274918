# NoTruth / HyperPlatform core, modelled in Dafny

This project models three parts of the NoTruth driver and the HyperPlatform
VMM it is built on. It states in Dafny what each of them does, and proves
properties of the model.

- **The EPT memory-hiding engine** (`NoTruth/MemoryHide.cpp`). A hidden page
  has three machine-page variants: one for instruction fetches, one for data
  reads, and the original page. The engine keeps:
  - an ordered list of `HideInformation` records, shared by every processor (`ShareDataContainer`);
  - a one-record slot per processor (`HiddenData`), holding the record whose permissions are reverted after one single-stepped instruction;
  - the processor's EPT, modelled as a map from guest page frame to `{read, write, execute, pfn}`;
  - the monitor-trap-flag bit of the primary processor-based VM-execution controls (`Vmcs`).

  The EPT-violation and MTF handlers form a state machine over five settings: execute-only, read-only, read-write-execute, read-and-execute and disabled. The list operations (insert, lookup, enable, disable, remove) are methods of classes whose fields they update.

- **VMM bring-up in HyperPlatform** (`HyperPlatform/HyperPlatform/vm.cpp`).
  - Bit-level helpers (module `VmBits`): VMX control negotiation against a capability MSR, segment-descriptor base decoding, selector resolution through the GDT or the LDT, access-rights normalisation, the combined status of VMCS writes, and the CPUID backdoor check.
  - The 4 KiB MSR bitmap (module `MsrBitmap`), built in place by the same fill and clear-bits loops.
  - The life cycle of the pool allocations (module `VmLifecycle`): the reference-counted shared block; the per-processor block with its VMM stack, VMCS and VMXON regions, EPT and hook data; the goto-based unwinding of a failed bring-up; and `VmpFreeProcessorData`. Pool memory is the set of live objects of a `Kernel`, so a double free cannot verify.
  - Starting and stopping every processor (module `VmProcessors`).
  - `VmInitialization` itself (module `VmInit`).

- **Buffer and string algorithms of the hook layer** (`NoTruth/NoTruth.cpp`, module `NoTruth`):
  - the `NtQuerySystemInformation` handler, which unlinks `cmd.exe` records from an offset-linked process listing in place;
  - the pool-tag formatter;
  - the lookup of a hook's original function;
  - the export enumeration and its forwarder check.

Hardware and the OS are inputs of the model. This covers the VMX instructions, MSR and CPUID reads, `MmGetPhysicalAddress` under a given CR3, pool allocation success, and the result of the original system call. Every function is modelled for x64.

The insert deduplicates on the virtual page alone (`TruthFindHideInfoByVaAddr`, MemoryHide.cpp:470-475), so a second process's install of the same page is absorbed by the first record; `MemoryHide.SameVaFromTwoProcesses` states the consequence.

## Model

| member | source | states |
|---|---|---|
| MemoryHide.HideEntryExposure | NoTruth/MemoryHide.cpp:520-561 | for a record whose three pages differ: across the five settings, the data-read page is only ever mapped read-only; the execute page is readable only in the two transient settings (after a write or an execute fault); the original page is mapped only when hiding is disabled. The fault handlers use it to keep the execute page guarded |
| MemoryHide.ShareDataContainer.constructor | NoTruth/MemoryHide.cpp:178-183 | a new container holds no records |
| MemoryHide.HiddenData.constructor | NoTruth/MemoryHide.cpp:163-169 | a new per-processor block starts with an empty slot |
| MemoryHide.FirstMatch | NoTruth/MemoryHide.cpp:488-517 | the position found matches the key and no earlier record does; no position is found exactly when no record matches |
| MemoryHide.FirstMatchAppend | NoTruth/MemoryHide.cpp:466-482 | appending a record keeps an earlier match in place; otherwise the new record is found exactly when it matches |
| MemoryHide.FindIndex | NoTruth/MemoryHide.cpp:493-500 | the `find_if` search loop returns the first matching position |
| MemoryHide.FindHideInfoByVaAddr | NoTruth/MemoryHide.cpp:488-501 | the first record in list order whose `patch_address` lies on the page of the address, or none |
| MemoryHide.FindHideInfoByPhyAddr | NoTruth/MemoryHide.cpp:504-517 | the first record in list order whose `NewPhysicalAddress` lies on the faulting page, or none |
| MemoryHide.GetHideMdl | NoTruth/MemoryHide.cpp:438-451 | the MDL of the first record owned by the process, or null (0) when it owns none |
| MemoryHide.ModifyEptEntryRwx | NoTruth/MemoryHide.cpp:145-160 | only the entry of the guest page holding the address changes: it gets the given read/write/execute flags and the machine page's frame; every other entry is unchanged |
| MemoryHide.EnableEntryForExecuteOnly | NoTruth/MemoryHide.cpp:520-526 | the record's guest frame maps the execute page with (R,W,X) = (0,0,1); nothing else changes |
| MemoryHide.EnableEntryForAll | NoTruth/MemoryHide.cpp:528-534 | the record's guest frame maps the execute page with (1,1,1); nothing else changes |
| MemoryHide.EnableEntryForReadOnly | NoTruth/MemoryHide.cpp:536-543 | the record's guest frame maps the data-read page with (1,0,0); nothing else changes |
| MemoryHide.EnableEntryForReadAndExec | NoTruth/MemoryHide.cpp:545-552 | the record's guest frame maps the execute page with (1,0,1); nothing else changes |
| MemoryHide.DisableVarHiding | NoTruth/MemoryHide.cpp:554-561 | the record's guest frame maps the original page with (1,1,1); nothing else changes |
| MemoryHide.WithMonitorTrapFlag | NoTruth/MemoryHide.cpp:564-570 | the monitor trap flag (bit 27) is set or clear as asked, and every other control bit is kept |
| MemoryHide.SetMonitorTrapFlag | NoTruth/MemoryHide.cpp:564-570 | the control field becomes the old value with only the MTF bit changed |
| MemoryHide.SaveLastHideInfo | NoTruth/MemoryHide.cpp:574-578 | needs an empty slot; afterwards the slot holds the record |
| MemoryHide.RestoreLastHideInfo | NoTruth/MemoryHide.cpp:581-589 | needs a full slot; returns the saved record and leaves the slot empty |
| MemoryHide.HandleEptViolation | NoTruth/MemoryHide.cpp:363-435 | declines, changing nothing, exactly when the container is null or no record is on the faulting page. Otherwise it installs, for the first such record, read-only on a read, read-write-execute on a write or read-and-execute on an execute (tested in that order). It arms MTF and fills the slot on a write or execute, and on a read only when the guest RIP is on another page. It keeps the invariant that single-stepping is armed exactly while the slot is full. When an access bit is set and the record's three pages differ, afterwards the execute page is readable at the record's frame only while single-stepping is armed |
| MemoryHide.HandleMonitorTrapFlag | NoTruth/MemoryHide.cpp:349-361 | takes the record out of the slot, reinstalls execute-only for it alone and clears MTF; afterwards the slot is empty and MTF disarmed, and the execute page at that record's frame is not readable |
| MemoryHide.ApplyAllCovers | NoTruth/MemoryHide.cpp:247-268 | after a bulk update, every record's guest frame has the permissions of the setting |
| MemoryHide.ApplyAllDistinct | NoTruth/MemoryHide.cpp:247-268 | when no two records share a guest frame, a bulk update leaves each frame with exactly its record's entry |
| MemoryHide.ApplyAllFrame | NoTruth/MemoryHide.cpp:247-268 | a bulk update changes no frame that no record touches, and adds none |
| MemoryHide.EnableAllMemoryHide | NoTruth/MemoryHide.cpp:247-256 | the EPT becomes the old EPT with execute-only installed for every record, in list order |
| MemoryHide.DisableAllMemoryHide | NoTruth/MemoryHide.cpp:259-268 | the EPT becomes the old EPT with the original page (1,1,1) installed for every record, in list order |
| MemoryHide.DisableSingleMemoryHide | NoTruth/MemoryHide.cpp:271-286 | only the first record owned by the process is disabled; nothing changes when it owns none |
| MemoryHide.AsWrittenFailsExactlyWhenAppended | NoTruth/MemoryHide.cpp:476-482 | as written, the insert reports failure exactly when it did append the record |
| MemoryHide.CreateNewHiddenNodeCounterexample | NoTruth/MemoryHide.cpp:476-482 | installing one record into an empty list appends it, yet the as-written call returns false while the corrected one returns true |
| MemoryHide.InsertedProperties | NoTruth/MemoryHide.cpp:466-482 | installing is idempotent and keeps virtual pages unique. It adds at most one record, keeps the existing records in place, and leaves the page of the record covered |
| MemoryHide.SameVaFromTwoProcesses | NoTruth/MemoryHide.cpp:470-475 | a second process installing the same virtual page leaves only the first process's record |
| MemoryHide.CreateNewHiddenNodeAsWritten | NoTruth/MemoryHide.cpp:454-485 | the call as written: false for a null container; otherwise the same list update as the corrected call, with the result true only when a record already covered the page, so every append reports failure |
| MemoryHide.CreateNewHiddenNode | NoTruth/MemoryHide.cpp:454-485 | false for a null container; otherwise the list gains the record unless one already covers its virtual page, and the call succeeds (the corrected result) |
| MemoryHide.RemoveFirstProperties | NoTruth/MemoryHide.cpp:311-335 | erasing the first match removes exactly one matching record when there is one. The list is one shorter and, as a multiset, is the old list less that record. Nothing changes when no record matches |
| MemoryHide.RemoveSingleHideNode | NoTruth/MemoryHide.cpp:311-335 | the list loses the first record of the process and keeps the others in order; it is unchanged if the process owns none |
| MemoryHide.RemoveAllHideNode | NoTruth/MemoryHide.cpp:289-308 | the list ends empty |
| VmBits.AdjustControlValue | HyperPlatform/HyperPlatform/vm.cpp:1102-1116 | every must-be-one bit of the low word is set; every other bit is the requested bit masked by the allowed-1 high word |
| VmBits.AdjustIdempotent | HyperPlatform/HyperPlatform/vm.cpp:1102-1116 | adjusting an adjusted value changes nothing |
| VmBits.AdjustHonoursCapabilities | HyperPlatform/HyperPlatform/vm.cpp:1102-1116 | for a consistent capability MSR, no forbidden bit is ever set, and a request that already honours both words is returned unchanged |
| VmBits.NegotiatedControlsEnableEpt | HyperPlatform/HyperPlatform/vm.cpp:617-833 | with the TRUE or plain MSRs that IA32_VMX_BASIC selects: the MSR bitmap and secondary controls are on when allowed; EPT is on when allowed and off when neither allowed nor forced |
| VmBits.EntryAddress | HyperPlatform/HyperPlatform/vm.cpp:1076-1081 | a descriptor address is the table base plus index times 8, so it keeps the base's alignment within 8 bytes |
| VmBits.BaseRoundTrip | HyperPlatform/HyperPlatform/vm.cpp:1084-1099 | decoding a descriptor returns the base its fields encode: all 64 bits for a system descriptor, the low 32 bits otherwise |
| VmBits.SegmentBaseIgnoresRpl | HyperPlatform/HyperPlatform/vm.cpp:1053-1073 | the RPL bits never change the base of a non-null selector; selectors 1 to 3, which the processor treats as null, are resolved through GDT entry 0 rather than giving 0 |
| VmBits.SameFieldsSameBase | HyperPlatform/HyperPlatform/vm.cpp:1053-1081 | a non-null selector's base depends only on its index and table indicator |
| VmBits.HostSelector | HyperPlatform/HyperPlatform/vm.cpp:884-890 | a host selector written as `selector & 0xF8` has RPL 0 and TI 0, and keeps the index of a selector below 0x100 |
| VmBits.SegmentAccessRight | HyperPlatform/HyperPlatform/vm.cpp:1035-1050 | the reserved bits are always clear. A null selector gives only the unusable bit; a non-null one gives exactly the LAR attributes with the unusable bit clear |
| VmBits.UnusableIffNull | HyperPlatform/HyperPlatform/vm.cpp:1035-1050 | a segment is marked unusable exactly when its selector is null |
| VmBits.CombinedStatusOk | HyperPlatform/HyperPlatform/vm.cpp:871-1013 | the OR of the VMCS write statuses is `kOk` exactly when every write returned `kOk` |
| VmBits.CompareMemory | HyperPlatform/HyperPlatform/vm.cpp:1221-1222 | `RtlCompareMemory` returns the length of the longest common prefix |
| VmBits.CompareMemoryEqual | HyperPlatform/HyperPlatform/vm.cpp:1221-1222 | the whole length is returned exactly when the buffers are equal |
| VmBits.LittleEndianRoundTrip | HyperPlatform/HyperPlatform/vm.cpp:1218-1220 | reassembling the four bytes copied out of a register gives the register back |
| VmBits.LittleEndianInjective | HyperPlatform/HyperPlatform/vm.cpp:1218-1220 | two registers copy out the same bytes exactly when they are equal |
| VmBits.IsVmmInstalledExactly | HyperPlatform/HyperPlatform/vm.cpp:1214-1223 | the VMM counts as installed exactly when the backdoor CPUID answered with the EBX, EDX and ECX values that spell "Pong by VMM!" |
| MsrBitmap.ClearedBit | HyperPlatform/HyperPlatform/vm.cpp:306-324 | clearing one bit of the buffer changes that bit and no other |
| MsrBitmap.Fill | HyperPlatform/HyperPlatform/vm.cpp:281-304 | `RtlFillMemory`/`RtlZeroMemory`: the range holds the value and every other byte is unchanged |
| MsrBitmap.ClearBits | HyperPlatform/HyperPlatform/vm.cpp:306-324 | `RtlClearBits`: exactly the bits of the range are cleared and every other bit is unchanged |
| MsrBitmap.InitializeMsrBitmap | HyperPlatform/HyperPlatform/vm.cpp:281-324 | low-range reads are intercepted except MSRs 0xE7, 0xE8 and every probed MSR that faulted; high-range reads except 0xC0000101 and 0xC0000102; no write is intercepted |
| MsrBitmap.BitmapEffect | HyperPlatform/HyperPlatform/vm.cpp:281-324 | with that bitmap, RDMSR exits for every MSR except IA32_MPERF, IA32_APERF, IA32_GS_BASE, IA32_KERNEL_GS_BASE and the faulting probed MSRs; WRMSR exits only for MSRs outside both ranges |
| VmLifecycle.SharedProcessorData.constructor | HyperPlatform/HyperPlatform/vm.cpp:269 | the zeroed shared block has no reference, no bitmap and no hook data |
| VmLifecycle.ProcessorData.constructor | HyperPlatform/HyperPlatform/vm.cpp:401 | the zeroed processor block has no members and no shared block |
| VmLifecycle.AllocateRegion | HyperPlatform/HyperPlatform/vm.cpp:419-425 | a successful allocation adds one fresh live object; a failed one returns null and changes nothing |
| VmLifecycle.AllocateStack | HyperPlatform/HyperPlatform/vm.cpp:417 | a successful allocation adds a fresh `KERNEL_STACK_SIZE` stack; a failed one returns null and changes nothing |
| VmLifecycle.Free | HyperPlatform/HyperPlatform/vm.cpp:1176-1210 | only a live allocation can be freed, and it is then no longer live |
| VmLifecycle.FreeIfAllocated | HyperPlatform/HyperPlatform/vm.cpp:1179-1193 | frees the member when it is non-null, and nothing otherwise |
| VmLifecycle.FreeMembers | HyperPlatform/HyperPlatform/vm.cpp:1179-1193 | frees exactly the non-null members |
| VmLifecycle.ReleaseShared | HyperPlatform/HyperPlatform/vm.cpp:1196-1207 | drops one reference; the bitmap, shared hook data and block are freed exactly when the count reaches 0 |
| VmLifecycle.FreeProcessorData | HyperPlatform/HyperPlatform/vm.cpp:1173-1211 | a no-op on null. Otherwise it frees the block and its non-null members, and drops the reference only when `shared_data` is set. The shared block goes with its last reference |
| VmLifecycle.InitializeSharedData | HyperPlatform/HyperPlatform/vm.cpp:258-335 | null, with nothing left allocated, exactly when one of its three allocations fails. Otherwise a fresh block with no reference, whose bitmap is the one `InitializeMsrBitmap` builds |
| VmLifecycle.EnterVmxMode | HyperPlatform/HyperPlatform/vm.cpp:525-566 | VMX operation is entered exactly when VMXON succeeds |
| VmLifecycle.VmxOff | HyperPlatform/HyperPlatform/vm.cpp:504-505 | `__vmx_off` is only reached in VMX operation, and leaves it |
| VmLifecycle.SetupVmcs | HyperPlatform/HyperPlatform/vm.cpp:871-1013 | succeeds exactly when every VMCS write returned `kOk`; host RSP becomes the VMM stack pointer |
| VmLifecycle.ZeroStack | HyperPlatform/HyperPlatform/vm.cpp:435 | every word of the VMM stack is 0 |
| VmLifecycle.AllocateProcessorData | HyperPlatform/HyperPlatform/vm.cpp:396-434 | null exactly when one of the six allocations fails, and then nothing is left allocated (the `goto ReturnFalse` unwinding). Otherwise the block and all its members are fresh and distinct, and the shared block is not yet set |
| VmLifecycle.AddEptData | HyperPlatform/HyperPlatform/vm.cpp:406-409 | the EPT data is set exactly when its allocation succeeds |
| VmLifecycle.AddShadowHookData | HyperPlatform/HyperPlatform/vm.cpp:412-415 | the hook data is set exactly when its allocation succeeds |
| VmLifecycle.AddStackAndRegions | HyperPlatform/HyperPlatform/vm.cpp:417-434 | the three allocations are all stored, and checked together |
| VmLifecycle.AddStack | HyperPlatform/HyperPlatform/vm.cpp:417-428 | `vmm_stack_limit` is set exactly when the stack allocation succeeds |
| VmLifecycle.AddVmcsRegion | HyperPlatform/HyperPlatform/vm.cpp:419-429 | `vmcs_region` is set exactly when its allocation succeeds |
| VmLifecycle.AddVmxonRegion | HyperPlatform/HyperPlatform/vm.cpp:423-430 | `vmxon_region` is set exactly when its allocation succeeds |
| VmLifecycle.PrepareStack | HyperPlatform/HyperPlatform/vm.cpp:435-472 | the stack is zero except for MAXULONG_PTR at top - 16 and the `processor_data` back-pointer at top - 8; the initial stack pointer is top - 16 |
| VmLifecycle.PrepareVmx | HyperPlatform/HyperPlatform/vm.cpp:482-495 | ready exactly when VMXON, VMCS initialisation and every VMCS write succeed. A failure after VMXON leaves VMX operation (`ReturnFalseWithVmxOff`); one at VMXON does not need to |
| VmLifecycle.Launch | HyperPlatform/HyperPlatform/vm.cpp:482-508 | the processor runs as a guest exactly when every VMX step and VMLAUNCH succeed. On a failure it is out of VMX operation, the block is freed and the reference dropped |
| VmLifecycle.InitializeVm | HyperPlatform/HyperPlatform/vm.cpp:382-509 | null context: no change. Full success: the processor runs as a guest on a fresh block that holds exactly one new reference, with the stack laid out and host RSP at the stack base. Otherwise: the processor is out of VMX operation, the count is as before, and everything allocated is freed |
| VmLifecycle.ShareAndLaunch | HyperPlatform/HyperPlatform/vm.cpp:435-508 | the reference is taken after every allocation succeeded, and kept exactly when the processor is virtualized |
| VmLifecycle.StopVm | HyperPlatform/HyperPlatform/vm.cpp:1155-1170 | succeeds exactly on a virtualized processor, which leaves VMX operation and has its block freed and its reference dropped; elsewhere nothing changes |
| VmProcessors.FirstFailure | HyperPlatform/HyperPlatform/vm.cpp:176 | every processor before the index is virtualized and the one at the index is not |
| VmProcessors.StartAll | HyperPlatform/HyperPlatform/vm.cpp:176 | succeeds exactly when every processor is virtualized. The processors before the first failure run as guests on separate fresh blocks, one reference each; the rest are out of VMX operation |
| VmProcessors.StartVm | HyperPlatform/HyperPlatform/vm.cpp:338-366 | reports success exactly when the processor came out virtualized, on a fresh block that refers to the shared block |
| VmProcessors.StartNext | HyperPlatform/HyperPlatform/vm.cpp:338-366 | one start step keeps the start invariant, or fails in a state in which the processors before it still run |
| VmProcessors.StopAll | HyperPlatform/HyperPlatform/vm.cpp:176-185 | after a start attempt, every processor ends out of VMX operation, every started block is freed and every reference dropped; the shared block goes with the last reference |
| VmProcessors.StopNext | HyperPlatform/HyperPlatform/vm.cpp:1155-1170 | one stop step keeps the stop invariant |
| VmProcessors.StopStarted | HyperPlatform/HyperPlatform/vm.cpp:1155-1170 | stopping one started processor frees its block, and the shared block too when its reference was the last |
| VmInit.InitializationStatus | HyperPlatform/HyperPlatform/vm.cpp:136-187 | the status checks in source order: installed VMM, missing VMX, no shared block, a processor not virtualized, then DdimonInitialization |
| VmInit.InitializationSucceeds | HyperPlatform/HyperPlatform/vm.cpp:136-187 | initialisation succeeds exactly when no VMM is installed, VMX is available, the shared block is allocated, every processor is virtualized and DdimonInitialization succeeds; the status is then DdimonInitialization's |
| VmInit.StartProcessors | HyperPlatform/HyperPlatform/vm.cpp:176-187 | on success every processor runs as a guest on its own block. On failure every processor is stopped and out of VMX operation, and every block is freed |
| VmInit.UndoStart | HyperPlatform/HyperPlatform/vm.cpp:176-187 | freeing what a start attempt added leaves the allocations from before, less the shared block when the attempt or the stop dropped its last reference |
| VmInit.VmInitializationAsWritten | HyperPlatform/HyperPlatform/vm.cpp:131-188 | the status is the source's. On failure every processor is out of VMX operation, and the allocations left behind are the shared block exactly when the status is STATUS_UNSUCCESSFUL and the first processor failed before taking its reference |
| VmInit.SharedBlockLeak | HyperPlatform/HyperPlatform/vm.cpp:145-180 | one processor whose block cannot be allocated gives STATUS_UNSUCCESSFUL with the shared block still allocated |
| VmInit.VmInitialization | HyperPlatform/HyperPlatform/vm.cpp:131-188 | the status is the source's. On failure nothing stays allocated and every processor is out of VMX operation. On success every processor runs as a guest on its own block, all sharing one block whose count is the number of processors and whose bitmap is the built one |
| VmInit.StartWithReference | HyperPlatform/HyperPlatform/vm.cpp:176-187 | with the temporary reference, any failure frees the shared block as well, and a success leaves it with the processors |
| NoTruth.ChainBounds | NoTruth/NoTruth.cpp:653-656 | the records reached by following offsets lie in the buffer, at or after the starting record |
| NoTruth.KeptMembers | NoTruth/NoTruth.cpp:657 | a record is kept exactly when it is in the chain and not named cmd.exe |
| NoTruth.KeptIncreasing | NoTruth/NoTruth.cpp:653-666 | the kept records stay in listing order |
| NoTruth.UnlinkCmd | NoTruth/NoTruth.cpp:653-666 | the loop leaves a well-linked listing: the first record, then exactly the old records not named cmd.exe, in their old order. No name changes |
| NoTruth.HandleNtQuerySystemInformation | NoTruth/NoTruth.cpp:639-668 | the status is always the original call's. A failed call or another information class leaves the buffer untouched; otherwise the cmd.exe records are unlinked as `UnlinkCmd` states |
| NoTruth.FilteredListing | NoTruth/NoTruth.cpp:653-666 | in the filtered listing no record after the first is named cmd.exe, and every record of the original listing not named cmd.exe is still listed |
| NoTruth.TagToString | NoTruth/NoTruth.cpp:529-547 | the result is the tag's four bytes in memory order, each printable byte kept and every other byte (0 included) shown as '.', then the terminator |
| NoTruth.TagCharOf | NoTruth/NoTruth.cpp:533-538 | a tag byte is shown as a printable character, and a printable byte as itself |
| NoTruth.TagStringShape | NoTruth/NoTruth.cpp:529-547 | the string is four printable characters and a terminator |
| NoTruth.TagStringInjective | NoTruth/NoTruth.cpp:529-547 | two tags whose bytes are all printable print the same only when they are equal |
| NoTruth.FindOriginal | NoTruth/NoTruth.cpp:551-560 | the `original_call` of the first hook target whose handler is the argument, or null when there is none |
| NoTruth.EnumExportedSymbols | NoTruth/NoTruth.cpp:436-459 | an empty export directory, or one at RVA 0, makes no call. Otherwise the callback runs on the name indices in order, with the directory's first and last address, until it returns false. The status is success either way |
| NoTruth.EnumerateForHooks | NoTruth/NoTruth.cpp:436-484 | without a context the enumeration stops after the first name. With one, forwarders (exports inside the directory, both ends included) never stop it: it runs to the end unless a non-forwarder export fails to be hooked, and stops right after that export |
| Base.PageAlign | NoTruth/MemoryHide.cpp:34 | `PAGE_ALIGN` gives the page start at or below the address, within one page of it |
| Base.SamePageIsSameFrame | NoTruth/MemoryHide.cpp:34 | two addresses are on the same page exactly when their frame numbers agree |

## Left out

- VMX and privileged instructions: VMXON, VMCLEAR, VMPTRLD, VMLAUNCH, VMXOFF, VMCS reads and writes, CPUID, MSR reads, LAR, SGDT and INVEPT. Their results are inputs (the `BringUp` outcome, the VMCS write statuses, the backdoor registers, the capability MSRs, the LAR value). VMXOFF is modelled only as leaving VMX operation.
- The CR0/CR4 fixed-bit adjustment and the VMXON/VMCS revision-identifier writes in `VmpEnterVmxMode` and `VmpInitializeVMCS`: these are register and region contents the model does not look inside. Only whether each step succeeds is modelled.
- The field values `VmpSetupVMCS` writes: they copy live hardware state. Only the OR of the write statuses, the negotiated control words and the host RSP are modelled.
- `VmpIsVmxAvailable` and `VmpSetLockBitCallback`: hardware probing. Their result is the `vmxAvailable` input.
- The MSR probe under `__try` in `VmpInitializeSharedData`: its result is the `unsafeMsrs` input.
- `UtilForEachProcessor` is not part of this model. It is assumed to run the callback on each processor in turn and to stop at the first failure. DPC broadcast and concurrent access to `UserModeList` are left out: the source takes no lock.
- `VmTermination` and `VmpVmxOffThreadRoutine`: system-thread plumbing around the same stop broadcast that `VmProcessors.StopAll` models.
- The terminate hypercall of `VmpStopVM` (`UtilVmCall`) is modelled as succeeding exactly on a virtualized processor, which hands back its block.
- `DdimonInitialization`: its status is an input.
- The `#else` 32-bit branches and all logging. The model is fixed to x64.
- `EptInitialization`, `ShAllocateShadowHookData`, `ShAllocateSharedShaowHookData` and their free functions: each is modelled as one pool allocation that may fail.
- Pointers are modelled as values. A `HideInformation` is a record held by value, and a null pointer is 0 or `None`. The aliasing of `unique_ptr` records is not modelled, and neither is the `VariableHiding` factory returning null.
- `GetPhysicalAddressByNewCR3`'s CR3 switch: it is a function parameter `(va, cr3) -> physical address`. The source's result of 0 when either argument is 0 is modelled.
- `TruthHandleBreakpoint`: it ignores its arguments and returns true, so it has no behaviour to model.
- `IsUserModeHideActive` and the `NT_VERIFY`/`NT_ASSERT` checks become preconditions (a non-null container for the MTF handler, an empty or full slot).
- MemoryHide.CreateNewHiddenNode: the source builds the record itself from its arguments (`VariableHiding::CreateNoTruthNode(address, name, CR3, mdl, proc, P_Paddr)`, MemoryHide.cpp:476); the model takes the finished record as an input and assumes its `patchAddress` is the `address` argument that the duplicate check keys on. A factory that returns null is not modelled. The same applies to MemoryHide.CreateNewHiddenNodeAsWritten.
- MemoryHide.RemoveAllHideNode: the source erases elements while it range-iterates over the same vector, which is undefined behaviour in C++ and has no definite result. The model states the evident post-state, an empty list, for a loop that drops the records one at a time.
- NoTruth.UnlinkCmd: `next_entry_offset` is counted in records rather than bytes, and the 32-bit ULONG sum of two offsets is not wrapped. A buffer whose offsets overflow is not modelled.
- NoTruth.IsCmd: `_wcsnicmp` case folding is modelled for ASCII letters only.
- NoTruth.EnumerateForHooks: the name conversion (`RtlStringCchPrintfW`), `FsRtlIsNameInExpression` and `ShInstallHide` for the matching targets are summed up in one input per export, whether hooking it succeeded. `UtilIsInBounds` is not part of this model; it is taken as inclusive at both ends.
- NoTruth.FindOriginal: the `NT_ASSERT` that the found `original_call` is non-null is not a precondition. The model returns whatever the target holds.
- The OS plumbing of NoTruth.cpp: MDL lock and unlock, `KeStackAttachProcess`, `ProcessMonitor`, `HiddenStartByIOCTL`, the process-notify routine, `NoTruthInitialization`/`NoTruthTermination`, and the `ExFreePool`, `ExFreePoolWithTag`, `ExQueueWorkItem` and `ExAllocatePoolWithTag` hook handlers, which only call the original and log.
- The engine start and stop functions (`TruthStartHiddenEngine`, `TruthStopHiddenEngine`, `TruthDisableHideByProcess`) and the `Page` constructor: pool allocation and OS calls around the modelled list operations.

## Findings

| source | as written | input that shows it | evidently intended | confidence | as-written member | corrected member |
|---|---|---|---|---|---|---|
| NoTruth/MemoryHide.cpp:476-482 | `info` is moved into `UserModeList` before `!info` is tested, so a successful append returns false | a non-null container with an empty list and any record: the record is appended and the call returns false | a successful install returns true | not executed | MemoryHide.CreateNewHiddenNodeAsWritten, MemoryHide.CreateNewHiddenNodeCounterexample | MemoryHide.CreateNewHiddenNode |
| HyperPlatform/HyperPlatform/vm.cpp:145-187 | the shared block is freed only when the last processor block drops its reference. When the first processor fails before taking one, nothing frees it | one processor whose `ProcessorData` allocation fails: STATUS_UNSUCCESSFUL, with the shared block, its MSR bitmap and its shared hook data still allocated | every failure of `VmInitialization` leaves nothing allocated | not executed | VmInit.VmInitializationAsWritten, VmInit.SharedBlockLeak | VmInit.VmInitialization |
