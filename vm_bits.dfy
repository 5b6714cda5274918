/** The bit-level helpers of HyperPlatform/HyperPlatform/vm.cpp: VMX
    capability negotiation, segment descriptors and selectors, access
    rights for the VMCS, the combined status of VMCS writes, and the
    CPUID backdoor that tells whether the VMM is already installed. */
module VmBits {

  // ---------------------------------------------------------------------
  // VMX capability negotiation

  /** The allowed-0 settings: the low 32 bits of a VMX capability MSR
      (a bit set here must be one in the control). */
  function MustBeOne(msrValue: bv64): bv32
  {
    (msrValue & 0xFFFF_FFFF) as bv32
  }

  /** The allowed-1 settings: the high 32 bits of a VMX capability MSR
      (a bit clear here must be zero in the control). */
  function MayBeOne(msrValue: bv64): bv32
  {
    (msrValue >> 32) as bv32
  }

  /** VmpAdjustControlValue: every must-be-one bit is set, and every other
      bit is the requested bit masked by the allowed-1 settings. */
  function AdjustControlValue(msrValue: bv64, requested: bv32): (r: bv32)
    ensures r & MustBeOne(msrValue) == MustBeOne(msrValue)
    ensures r & !MustBeOne(msrValue) == requested & MayBeOne(msrValue) & !MustBeOne(msrValue)
  {
    (requested & MayBeOne(msrValue)) | MustBeOne(msrValue)
  }

  /** Adjusting an adjusted value changes nothing. */
  lemma AdjustIdempotent(msrValue: bv64, requested: bv32)
    ensures AdjustControlValue(msrValue, AdjustControlValue(msrValue, requested)) ==
            AdjustControlValue(msrValue, requested)
  {
    OrAndIdempotent(requested, MayBeOne(msrValue), MustBeOne(msrValue));
  }

  lemma OrAndIdempotent(x: bv32, h: bv32, l: bv32)
    ensures (((x & h) | l) & h) | l == (x & h) | l
  {
  }

  /** For a consistent capability MSR (no bit both forced to one and
      forbidden), the result sets no forbidden bit, and a request that
      already honours both settings is returned unchanged. */
  lemma AdjustHonoursCapabilities(msrValue: bv64, requested: bv32)
    requires MustBeOne(msrValue) & !MayBeOne(msrValue) == 0
    ensures AdjustControlValue(msrValue, requested) & !MayBeOne(msrValue) == 0
    ensures requested & MustBeOne(msrValue) == MustBeOne(msrValue) && requested & !MayBeOne(msrValue) == 0 ==>
              AdjustControlValue(msrValue, requested) == requested
  {
  }

  /** The capability MSRs consulted, by number. */
  const Ia32VmxBasic: nat := 0x480
  const Ia32VmxPinbasedCtls: nat := 0x481
  const Ia32VmxProcBasedCtls: nat := 0x482
  const Ia32VmxExitCtls: nat := 0x483
  const Ia32VmxEntryCtls: nat := 0x484
  const Ia32VmxProcBasedCtls2: nat := 0x48B
  const Ia32VmxTruePinbasedCtls: nat := 0x48D
  const Ia32VmxTrueProcBasedCtls: nat := 0x48E
  const Ia32VmxTrueExitCtls: nat := 0x48F
  const Ia32VmxTrueEntryCtls: nat := 0x490

  /** The controls requested by VmpSetupVMCS on x64. */
  const RequestedEntryControls: bv32 := 0x0000_0200      // IA-32e mode guest (bit 9)
  const RequestedExitControls: bv32 := 0x0000_8200       // host address-space size (9), acknowledge interrupt (15)
  const RequestedPinControls: bv32 := 0
  const RequestedProcControls: bv32 := 0x9081_8000       // CR3-load (15), CR3-store (16), MOV-DR (23),
                                                         // MSR bitmaps (28), secondary controls (31)
  const RequestedProcControls2: bv32 := 0x0010_000E      // EPT (1), descriptor-table exiting (2),
                                                         // RDTSCP (3), XSAVES/XRSTORS (20)

  /** Bit 55 of IA32_VMX_BASIC: the TRUE capability MSRs exist. */
  predicate UseTrueMsrs(vmxBasic: bv64)
  {
    (vmxBasic >> 55) & 1 == 1
  }

  datatype Controls = Controls(entry: bv32, exit: bv32, pin: bv32, proc: bv32, proc2: bv32)

  /** The five control words as VmpSetupVMCS negotiates them; readMsr
      stands for UtilReadMsr64. The secondary controls have no TRUE MSR. */
  function NegotiatedControls(readMsr: nat -> bv64): Controls
  {
    var useTrue := UseTrueMsrs(readMsr(Ia32VmxBasic));
    Controls(
      AdjustControlValue(readMsr(if useTrue then Ia32VmxTrueEntryCtls else Ia32VmxEntryCtls), RequestedEntryControls),
      AdjustControlValue(readMsr(if useTrue then Ia32VmxTrueExitCtls else Ia32VmxExitCtls), RequestedExitControls),
      AdjustControlValue(readMsr(if useTrue then Ia32VmxTruePinbasedCtls else Ia32VmxPinbasedCtls), RequestedPinControls),
      AdjustControlValue(readMsr(if useTrue then Ia32VmxTrueProcBasedCtls else Ia32VmxProcBasedCtls), RequestedProcControls),
      AdjustControlValue(readMsr(Ia32VmxProcBasedCtls2), RequestedProcControls2))
  }

  /** The primary and secondary capability MSRs that apply. */
  function ProcCapability(readMsr: nat -> bv64): bv64
  {
    readMsr(if UseTrueMsrs(readMsr(Ia32VmxBasic)) then Ia32VmxTrueProcBasedCtls else Ia32VmxProcBasedCtls)
  }

  /** When the processor allows them, the negotiated controls turn on the
      MSR bitmap, the secondary controls and EPT, which the hiding engine
      and the MSR filter rely on; and when it does not allow EPT, the
      negotiated secondary controls leave EPT off unless forced on. */
  lemma NegotiatedControlsEnableEpt(readMsr: nat -> bv64)
    ensures MayBeOne(ProcCapability(readMsr)) & 0x9000_0000 == 0x9000_0000 ==>
              NegotiatedControls(readMsr).proc & 0x9000_0000 == 0x9000_0000
    ensures MayBeOne(readMsr(Ia32VmxProcBasedCtls2)) & 0x2 != 0 ==>
              NegotiatedControls(readMsr).proc2 & 0x2 != 0
    ensures MayBeOne(readMsr(Ia32VmxProcBasedCtls2)) & 0x2 == 0 && MustBeOne(readMsr(Ia32VmxProcBasedCtls2)) & 0x2 == 0 ==>
              NegotiatedControls(readMsr).proc2 & 0x2 == 0
  {
    var c := NegotiatedControls(readMsr);
    assert c.proc == AdjustControlValue(ProcCapability(readMsr), RequestedProcControls);
    assert c.proc2 == AdjustControlValue(readMsr(Ia32VmxProcBasedCtls2), RequestedProcControls2);
  }

  // ---------------------------------------------------------------------
  // Segment selectors and descriptors

  /** Linear memory, byte by byte. */
  type Memory = bv64 -> bv8

  /** Bits 3..15 of a selector: the descriptor index. */
  function SelectorIndex(selector: bv16): bv16
  {
    selector >> 3
  }

  /** Bit 2 of a selector: the descriptor lives in the LDT. */
  predicate SelectorInLdt(selector: bv16)
  {
    selector & 4 != 0
  }

  /** VmpGetSegmentDescriptor: the address of the selected 8-byte entry
      of a descriptor table, with 64-bit wrap-around. */
  function DescriptorAddress(tableBase: bv64, selector: bv16): (r: bv64)
  {
    EntryAddress(tableBase, SelectorIndex(selector))
  }

  /** The address of entry index of a table of 8-byte entries. */
  function EntryAddress(tableBase: bv64, index: bv16): (r: bv64)
    ensures r & 7 == tableBase & 7
  {
    tableBase + ((index as bv64) << 3)
  }

  /** The S flag (bit 4 of byte 5): clear for a system descriptor such as
      an LDT or TSS, whose x64 form is 16 bytes long. */
  predicate IsSystemDescriptor(mem: Memory, descriptor: bv64)
  {
    mem(descriptor + 5) & 0x10 == 0
  }

  function Widen(b: bv8): bv64
  {
    b as bv64
  }

  /** VmpGetSegmentBaseByDescriptor on x64: base bits 0..15 from bytes 2..3,
      16..23 from byte 4 and 24..31 from byte 7; for a system descriptor,
      bits 32..63 from bytes 8..11. */
  function BaseByDescriptor(mem: Memory, descriptor: bv64): bv64
  {
    var low := Widen(mem(descriptor + 2)) | (Widen(mem(descriptor + 3)) << 8);
    var middle := Widen(mem(descriptor + 4)) << 16;
    var high := Widen(mem(descriptor + 7)) << 24;
    var base32 := (high | middle | low) & 0xFFFF_FFFF;
    if IsSystemDescriptor(mem, descriptor) then
      var upper := Widen(mem(descriptor + 8)) | (Widen(mem(descriptor + 9)) << 8) |
                   (Widen(mem(descriptor + 10)) << 16) | (Widen(mem(descriptor + 11)) << 24);
      base32 | (upper << 32)
    else
      base32
  }

  /** The memory holds a descriptor at the given address whose base
      fields encode base, byte by byte. */
  predicate EncodesBase(mem: Memory, descriptor: bv64, base: bv64)
  {
    && Widen(mem(descriptor + 2)) == base & 0xFF
    && Widen(mem(descriptor + 3)) == (base >> 8) & 0xFF
    && Widen(mem(descriptor + 4)) == (base >> 16) & 0xFF
    && Widen(mem(descriptor + 7)) == (base >> 24) & 0xFF
    && Widen(mem(descriptor + 8)) == (base >> 32) & 0xFF
    && Widen(mem(descriptor + 9)) == (base >> 40) & 0xFF
    && Widen(mem(descriptor + 10)) == (base >> 48) & 0xFF
    && Widen(mem(descriptor + 11)) == (base >> 56) & 0xFF
  }

  /** Decoding a descriptor gives back the base it encodes: all 64 bits for
      a system descriptor, the low 32 bits for a code or data descriptor. */
  lemma BaseRoundTrip(mem: Memory, descriptor: bv64, base: bv64)
    requires EncodesBase(mem, descriptor, base)
    ensures IsSystemDescriptor(mem, descriptor) ==> BaseByDescriptor(mem, descriptor) == base
    ensures !IsSystemDescriptor(mem, descriptor) ==> BaseByDescriptor(mem, descriptor) == base & 0xFFFF_FFFF
  {
    Reassemble(base);
  }

  lemma Reassemble(x: bv64)
    ensures ((((x >> 24) & 0xFF) << 24) | (((x >> 16) & 0xFF) << 16) | ((x & 0xFF) | (((x >> 8) & 0xFF) << 8))) & 0xFFFF_FFFF
            == x & 0xFFFF_FFFF
    ensures (((x >> 32) & 0xFF) | (((x >> 40) & 0xFF) << 8) | (((x >> 48) & 0xFF) << 16) | (((x >> 56) & 0xFF) << 24)) << 32
            == x & 0xFFFF_FFFF_0000_0000
    ensures (x & 0xFFFF_FFFF) | (x & 0xFFFF_FFFF_0000_0000) == x
  {
  }

  /** VmpGetSegmentBase on x64: 0 for the null selector, the base of the
      selected GDT entry, or (TI set) the base of the entry in the LDT that
      the LDTR selects from the GDT. */
  function SegmentBase(mem: Memory, gdtBase: bv64, ldtr: bv16, selector: bv16): bv64
  {
    if selector == 0 then 0
    else if SelectorInLdt(selector) then
      var ldtBase := BaseByDescriptor(mem, DescriptorAddress(gdtBase, ldtr));
      BaseByDescriptor(mem, DescriptorAddress(ldtBase, selector))
    else
      BaseByDescriptor(mem, DescriptorAddress(gdtBase, selector))
  }

  /** The requested privilege level (bits 0..1) never changes the base of
      a non-null selector; selectors 1..3, which the processor treats as
      null, are resolved through GDT entry 0 instead of giving 0. */
  lemma SegmentBaseIgnoresRpl(mem: Memory, gdtBase: bv64, ldtr: bv16, selector: bv16)
    ensures selector & 0xFFFC != 0 ==>
              SegmentBase(mem, gdtBase, ldtr, selector) == SegmentBase(mem, gdtBase, ldtr, selector & 0xFFFC)
    ensures selector != 0 && selector & 0xFFFC == 0 ==>
              SegmentBase(mem, gdtBase, ldtr, selector) == BaseByDescriptor(mem, gdtBase)
  {
    if selector & 0xFFFC != 0 {
      RplBits(selector);
      SameFieldsSameBase(mem, gdtBase, ldtr, selector, selector & 0xFFFC);
    } else if selector != 0 {
      RplBits(selector);
      ZeroIndexAddress(gdtBase, selector);
    }
  }

  /** The base of a non-null selector depends on its index and table
      indicator only. */
  lemma SameFieldsSameBase(mem: Memory, gdtBase: bv64, ldtr: bv16, s1: bv16, s2: bv16)
    requires s1 != 0 && s2 != 0
    requires SelectorIndex(s1) == SelectorIndex(s2) && SelectorInLdt(s1) == SelectorInLdt(s2)
    ensures SegmentBase(mem, gdtBase, ldtr, s1) == SegmentBase(mem, gdtBase, ldtr, s2)
  {
  }

  lemma ZeroIndexAddress(tableBase: bv64, selector: bv16)
    requires SelectorIndex(selector) == 0
    ensures DescriptorAddress(tableBase, selector) == tableBase
  {
  }

  /** Clearing the RPL keeps the index and the table indicator. */
  lemma RplBits(selector: bv16)
    ensures SelectorIndex(selector & 0xFFFC) == SelectorIndex(selector)
    ensures SelectorInLdt(selector & 0xFFFC) == SelectorInLdt(selector)
    ensures selector & 0xFFFC == 0 ==> SelectorIndex(selector) == 0 && !SelectorInLdt(selector)
    ensures selector & 0xFFFC != 0 ==> selector != 0
  {
  }

  /** The host selector fields are written as selector & 0xF8. */
  function HostSelector(selector: bv16): (r: bv16)
    ensures r & 7 == 0
    ensures selector < 0x100 ==> SelectorIndex(r) == SelectorIndex(selector)
    ensures selector >= 0x100 ==> SelectorIndex(r) == SelectorIndex(selector) & 0x1F
  {
    selector & 0xF8
  }

  // ---------------------------------------------------------------------
  // Access rights

  /** The access-rights format of the VMCS guest-state area. */
  datatype AccessRight = AccessRight(
    segmentType: bv32, system: bool, dpl: bv32, present: bool,
    available: bool, longMode: bool, defaultBig: bool, granularity: bool, unusable: bool)

  function DecodeAccessRight(a: bv32): AccessRight
  {
    AccessRight(a & 0xF, a & 0x10 != 0, (a >> 5) & 3, a & 0x80 != 0,
                a & 0x1000 != 0, a & 0x2000 != 0, a & 0x4000 != 0, a & 0x8000 != 0, a & 0x1_0000 != 0)
  }

  /** The attributes as the LAR instruction returns them: bits 8..15 and
      20..23 of the descriptor's second doubleword. */
  function LarAttributes(lar: bv64): AccessRight
  {
    var d := (lar & 0xFFFF_FFFF) as bv32;
    AccessRight((d >> 8) & 0xF, d & 0x1000 != 0, (d >> 13) & 3, d & 0x8000 != 0,
                d & 0x10_0000 != 0, d & 0x20_0000 != 0, d & 0x40_0000 != 0, d & 0x80_0000 != 0, false)
  }

  /** VmpGetSegmentAccessRight: for a non-null selector, the LAR result
      shifted right by 8 and truncated to 32 bits, with the reserved fields
      and the unusable bit cleared; for the null selector only unusable. */
  function SegmentAccessRight(selector: bv16, lar: bv64): (r: bv32)
    ensures r & 0xFFFE_0F00 == 0
    ensures selector == 0 ==> r == 0x1_0000
    ensures selector != 0 ==> DecodeAccessRight(r) == LarAttributes(lar)
  {
    if selector != 0 then
      var all := ((lar >> 8) & 0xFFFF_FFFF) as bv32;
      all & !0xFFFF_0F00
    else
      0x1_0000
  }

  /** A segment is marked unusable exactly when its selector is null. */
  lemma UnusableIffNull(selector: bv16, lar: bv64)
    ensures DecodeAccessRight(SegmentAccessRight(selector, lar)).unusable <==> selector == 0
  {
  }

  // ---------------------------------------------------------------------
  // Combined status of VMCS writes

  /** VmxStatus values. */
  const VmxOk: bv8 := 0
  const VmxErrorWithStatus: bv8 := 1
  const VmxErrorWithoutStatus: bv8 := 2

  /** The status VmpSetupVMCS accumulates with `error |= UtilVmWrite(...)`. */
  function CombinedStatus(results: seq<bv8>): bv8
  {
    if results == [] then VmxOk else CombinedStatus(results[..|results| - 1]) | results[|results| - 1]
  }

  /** The combined status is kOk exactly when every write returned kOk. */
  lemma {:induction false} CombinedStatusOk(results: seq<bv8>)
    ensures CombinedStatus(results) == VmxOk <==> forall i :: 0 <= i < |results| ==> results[i] == VmxOk
  {
    if results != [] {
      var front := results[..|results| - 1];
      CombinedStatusOk(front);
      assert forall i :: 0 <= i < |front| ==> front[i] == results[i];
    }
  }

  // ---------------------------------------------------------------------
  // The CPUID backdoor

  /** RtlCompareMemory: the number of leading bytes on which a and b agree. */
  function CompareMemory(a: seq<bv8>, b: seq<bv8>): (n: nat)
    requires |a| == |b|
    ensures n <= |a|
    ensures forall i :: 0 <= i < n ==> a[i] == b[i]
    ensures n < |a| ==> a[n] != b[n]
  {
    if a == [] then 0
    else if a[0] != b[0] then 0
    else 1 + CompareMemory(a[1..], b[1..])
  }

  /** All bytes agree exactly when the buffers are equal. */
  lemma CompareMemoryEqual(a: seq<bv8>, b: seq<bv8>)
    requires |a| == |b|
    ensures CompareMemory(a, b) == |a| <==> a == b
  {
  }

  /** The four bytes of a register, least significant first. */
  function LittleEndian(x: bv32): seq<bv8>
  {
    [(x & 0xFF) as bv8, ((x >> 8) & 0xFF) as bv8, ((x >> 16) & 0xFF) as bv8, ((x >> 24) & 0xFF) as bv8]
  }

  function FromLittleEndian(b: seq<bv8>): bv32
    requires |b| == 4
  {
    (b[0] as bv32) | ((b[1] as bv32) << 8) | ((b[2] as bv32) << 16) | ((b[3] as bv32) << 24)
  }

  lemma LittleEndianRoundTrip(x: bv32)
    ensures FromLittleEndian(LittleEndian(x)) == x
  {
    ByteOfWidened32(x);
    Reassemble32(x);
  }

  lemma ByteOfWidened32(x: bv32)
    ensures ((x & 0xFF) as bv8) as bv32 == x & 0xFF
    ensures (((x >> 8) & 0xFF) as bv8) as bv32 == (x >> 8) & 0xFF
    ensures (((x >> 16) & 0xFF) as bv8) as bv32 == (x >> 16) & 0xFF
    ensures (((x >> 24) & 0xFF) as bv8) as bv32 == (x >> 24) & 0xFF
  {
  }

  lemma Reassemble32(x: bv32)
    ensures (x & 0xFF) | (((x >> 8) & 0xFF) << 8) | (((x >> 16) & 0xFF) << 16) | (((x >> 24) & 0xFF) << 24) == x
  {
  }

  /** The four bytes determine the register. */
  lemma LittleEndianInjective(x: bv32, y: bv32)
    ensures LittleEndian(x) == LittleEndian(y) <==> x == y
  {
    LittleEndianRoundTrip(x);
    LittleEndianRoundTrip(y);
  }

  /** The 13-byte vendor string VmpIsVmmInstalled assembles from the
      backdoor CPUID leaf: EBX, EDX, ECX, then the terminating NUL. */
  function VendorId(ebx: bv32, ecx: bv32, edx: bv32): seq<bv8>
  {
    LittleEndian(ebx) + LittleEndian(edx) + LittleEndian(ecx) + [0]
  }

  /** "Pong by VMM!\0" as bytes. */
  const PongByVmm: seq<bv8> := [0x50, 0x6F, 0x6E, 0x67, 0x20, 0x62, 0x79, 0x20, 0x56, 0x4D, 0x4D, 0x21, 0x00]

  /** VmpIsVmmInstalled, given the registers the backdoor CPUID returned. */
  predicate IsVmmInstalled(ebx: bv32, ecx: bv32, edx: bv32)
  {
    CompareMemory(VendorId(ebx, ecx, edx), PongByVmm) == 13
  }

  /** The VMM counts as installed exactly when CPUID answered with the
      three register values that spell the pong message. */
  lemma IsVmmInstalledExactly(ebx: bv32, ecx: bv32, edx: bv32)
    ensures IsVmmInstalled(ebx, ecx, edx) <==> ebx == 0x676E_6F50 && edx == 0x2079_6220 && ecx == 0x214D_4D56
  {
    var v := VendorId(ebx, ecx, edx);
    CompareMemoryEqual(v, PongByVmm);
    assert LittleEndian(0x676E_6F50) == PongByVmm[0..4];
    assert LittleEndian(0x2079_6220) == PongByVmm[4..8];
    assert LittleEndian(0x214D_4D56) == PongByVmm[8..12];
    assert PongByVmm == PongByVmm[0..4] + PongByVmm[4..8] + PongByVmm[8..12] + [0];
    assert v[0..4] == LittleEndian(ebx) && v[4..8] == LittleEndian(edx) && v[8..12] == LittleEndian(ecx);
    LittleEndianInjective(ebx, 0x676E_6F50);
    LittleEndianInjective(edx, 0x2079_6220);
    LittleEndianInjective(ecx, 0x214D_4D56);
  }
}
