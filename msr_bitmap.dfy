/** The MSR bitmap that VmpInitializeSharedData builds in
    HyperPlatform/HyperPlatform/vm.cpp: a 4 KiB page holding four 1 KiB
    maps (read-low, read-high, write-low, write-high; section 24.6.9 of
    the Intel SDM, volume 3C). A set bit makes the corresponding RDMSR or
    WRMSR cause a VM exit. */
module MsrBitmap {
  import opened Base

  const BitmapBytes: nat := 0x1000
  const MapBits: nat := 1024 * 8
  const ReadLowBase: nat := 0               // bit index of the read-low map
  const ReadHighBase: nat := 1024 * 8       // bit index of the read-high map
  const WriteLowBase: nat := 2048 * 8       // bit index of the write-low map
  const WriteHighBase: nat := 3072 * 8      // bit index of the write-high map

  const ProbedMsrs: nat := 0x1000
  const Ia32Mperf: nat := 0xE7
  const Ia32Aperf: nat := 0xE8
  const Ia32GsBase: nat := 0xC000_0101
  const Ia32KernelGsBase: nat := 0xC000_0102

  /** Bit k of a byte buffer, bit k % 8 of byte k / 8 (RTL_BITMAP order). */
  predicate Bit(s: seq<bv8>, k: nat)
    requires k < 8 * |s|
  {
    BitOf(s[k / 8], k % 8)
  }

  /** Bit m of a byte. */
  predicate BitOf(b: bv8, m: nat)
    requires m < 8
  {
    (b >> m) & 1 == 1
  }

  /** A byte with bit j cleared. */
  function Cleared(b: bv8, j: nat): bv8
    requires j < 8
  {
    b & !(1 << j)
  }

  /** The set of MSRs whose reads and writes the finished bitmap intercepts,
      by bit index: every low-range read except IA32_MPERF, IA32_APERF and
      the MSRs whose probe faulted, every high-range read except IA32_GS_BASE
      and IA32_KERNEL_GS_BASE, and no write. */
  predicate Intercepted(unsafeMsrs: seq<bool>, k: nat)
    requires |unsafeMsrs| == ProbedMsrs
  {
    if k < ReadHighBase then k != Ia32Mperf && k != Ia32Aperf && !(k < ProbedMsrs && unsafeMsrs[k])
    else if k < WriteLowBase then k - ReadHighBase != 0x101 && k - ReadHighBase != 0x102
    else false
  }

  // ---------------------------------------------------------------------
  // Bit facts

  lemma ByteBit(b: bv8, m: nat)
    requires m < 8
    ensures b == 0xFF ==> BitOf(b, m)
    ensures b == 0 ==> !BitOf(b, m)
  {
  }

  lemma ClearedByteBit(b: bv8, j: nat, m: nat)
    requires j < 8 && m < 8
    ensures BitOf(Cleared(b, j), m) == (m != j && BitOf(b, m))
  {
    var mask: bv8 := 1 << j;
    assert mask == 1 || mask == 2 || mask == 4 || mask == 8 || mask == 16 || mask == 32 || mask == 64 || mask == 128;
  }

  /** Two bit indices in the same byte are equal exactly when their bit
      positions are. */
  lemma SameByte(k: nat, q: nat)
    requires q / 8 == k / 8
    ensures q % 8 == k % 8 <==> q == k
  {
    assert q == 8 * (q / 8) + q % 8;
    assert k == 8 * (k / 8) + k % 8;
  }

  /** Clearing one bit of one byte changes that bit only. */
  lemma ClearedBit(s: seq<bv8>, k: nat, q: nat)
    requires k < 8 * |s| && q < 8 * |s|
    ensures Bit(s[k / 8 := Cleared(s[k / 8], k % 8)], q) == (q != k && Bit(s, q))
  {
    if q / 8 == k / 8 {
      ClearedByteBit(s[k / 8], k % 8, q % 8);
      SameByte(k, q);
    } else {
      assert q != k;
    }
  }

  // ---------------------------------------------------------------------
  // Buffer operations

  /** RtlFillMemory / RtlZeroMemory on a range of the buffer. */
  method Fill(a: array<bv8>, from: nat, length: nat, value: bv8)
    requires from + length <= a.Length
    modifies a
    ensures forall i :: 0 <= i < a.Length ==> a[i] == if from <= i < from + length then value else old(a[i])
  {
    for i := from to from + length
      invariant forall j :: 0 <= j < a.Length ==> a[j] == if from <= j < i then value else old(a[j])
    {
      a[i] := value;
    }
  }

  /** RtlClearBits on an RTL_BITMAP of MapBits bits that starts at bit
      index base of the buffer: clears bits start .. start + count - 1. */
  method ClearBits(a: array<bv8>, base: nat, start: nat, count: nat)
    requires start + count <= MapBits
    requires base + MapBits <= 8 * a.Length
    modifies a
    ensures forall q :: 0 <= q < 8 * a.Length ==>
              Bit(a[..], q) == (Bit(old(a[..]), q) && !(base + start <= q < base + start + count))
  {
    for i := start to start + count
      invariant forall q :: 0 <= q < 8 * a.Length ==>
                  Bit(a[..], q) == (Bit(old(a[..]), q) && !(base + start <= q < base + i))
    {
      var k := base + i;
      ghost var before := a[..];
      a[k / 8] := Cleared(a[k / 8], k % 8);
      assert a[..] == before[k / 8 := Cleared(before[k / 8], k % 8)];
      forall q | 0 <= q < 8 * a.Length
        ensures Bit(a[..], q) == (q != k && Bit(before, q))
      {
        ClearedBit(before, k, q);
      }
    }
  }

  // ---------------------------------------------------------------------
  // The bitmap

  /** The bitmap part of VmpInitializeSharedData. unsafeMsrs[m] is what the
      probe loop recorded for MSR m: whether reading it raised an exception. */
  method InitializeMsrBitmap(a: array<bv8>, unsafeMsrs: seq<bool>)
    requires a.Length == BitmapBytes && |unsafeMsrs| == ProbedMsrs
    modifies a
    ensures forall k :: 0 <= k < 8 * BitmapBytes ==> Bit(a[..], k) == Intercepted(unsafeMsrs, k)
  {
    Fill(a, 0, BitmapBytes, 0);
    Fill(a, 0, 1024, 0xFF);
    Fill(a, 1024, 1024, 0xFF);
    forall k | 0 <= k < 8 * BitmapBytes
      ensures Bit(a[..], k) == (k < WriteLowBase)
    {
      ByteBit(a[k / 8], k % 8);
    }
    ClearBits(a, ReadLowBase, Ia32Mperf, 2);
    for m := 0 to ProbedMsrs
      invariant forall k :: 0 <= k < 8 * BitmapBytes ==>
                  Bit(a[..], k) == (k < WriteLowBase && k != Ia32Mperf && k != Ia32Aperf && !(k < m && unsafeMsrs[k]))
    {
      if unsafeMsrs[m] {
        ClearBits(a, ReadLowBase, m, 1);
      }
    }
    ClearBits(a, ReadHighBase, 0x101, 2);
  }

  // ---------------------------------------------------------------------
  // What the processor does with it

  /** Section 24.6.9: where the bit for an RDMSR of msr lives, if anywhere;
      an MSR outside both ranges always causes an exit. */
  function ReadBitIndex(msr: nat): (r: Option<nat>)
  {
    if msr < 0x2000 then Some(ReadLowBase + msr)
    else if 0xC000_0000 <= msr < 0xC000_2000 then Some(ReadHighBase + (msr - 0xC000_0000))
    else None
  }

  /** The same for WRMSR. */
  function WriteBitIndex(msr: nat): (r: Option<nat>)
  {
    if msr < 0x2000 then Some(WriteLowBase + msr)
    else if 0xC000_0000 <= msr < 0xC000_2000 then Some(WriteHighBase + (msr - 0xC000_0000))
    else None
  }

  predicate ReadExits(bitmap: seq<bv8>, msr: nat)
    requires |bitmap| == BitmapBytes
  {
    match ReadBitIndex(msr)
    case None => true
    case Some(k) => Bit(bitmap, k)
  }

  predicate WriteExits(bitmap: seq<bv8>, msr: nat)
    requires |bitmap| == BitmapBytes
  {
    match WriteBitIndex(msr)
    case None => true
    case Some(k) => Bit(bitmap, k)
  }

  /** With the bitmap built, RDMSR exits for every MSR except IA32_MPERF,
      IA32_APERF, IA32_GS_BASE, IA32_KERNEL_GS_BASE and the probed MSRs
      that faulted; WRMSR exits only for MSRs outside both ranges. */
  lemma BitmapEffect(bitmap: seq<bv8>, unsafeMsrs: seq<bool>, msr: nat)
    requires |bitmap| == BitmapBytes && |unsafeMsrs| == ProbedMsrs
    requires forall k :: 0 <= k < 8 * BitmapBytes ==> Bit(bitmap, k) == Intercepted(unsafeMsrs, k)
    ensures ReadExits(bitmap, msr) <==>
              msr != Ia32Mperf && msr != Ia32Aperf && msr != Ia32GsBase && msr != Ia32KernelGsBase &&
              !(msr < ProbedMsrs && unsafeMsrs[msr])
    ensures WriteExits(bitmap, msr) <==> WriteBitIndex(msr).None?
  {
  }
}
