/** Helpers shared by every module: an optional value, NTSTATUS values,
    and the 4 KiB page arithmetic of the x64 kernel (PAGE_SIZE, PAGE_ALIGN,
    PFN of a physical address). */
module Base {

  /** A value that may be missing; stands for a nullable pointer. */
  datatype Option<+T> = None | Some(value: T)

  /** NTSTATUS values. */
  const StatusSuccess: bv32 := 0
  const StatusUnsuccessful: bv32 := 0xC000_0001
  const StatusMemoryNotAllocated: bv32 := 0xC000_00A0
  const StatusCancelled: bv32 := 0xC000_0120
  const StatusHvFeatureUnavailable: bv32 := 0xC035_001E

  /** NT_SUCCESS: the severity bit is clear. */
  predicate NtSuccess(status: bv32)
  {
    status & 0x8000_0000 == 0
  }

  /** PAGE_SIZE on x64. */
  const PageSize: nat := 0x1000

  /** PAGE_ALIGN(x): the address with its low 12 bits cleared. */
  function PageAlign(x: nat): (r: nat)
    ensures r <= x < r + PageSize
    ensures r % PageSize == 0
  {
    x - x % PageSize
  }

  /** The page frame number of a (physical) address: UtilPfnFromPa. */
  function PageFrame(x: nat): nat
  {
    x / PageSize
  }

  /** ComparePage(x, y): both addresses lie on the same 4 KiB page. */
  predicate SamePage(x: nat, y: nat)
  {
    PageAlign(x) == PageAlign(y)
  }

  /** Two addresses lie on the same page exactly when their frame numbers agree. */
  lemma SamePageIsSameFrame(x: nat, y: nat)
    ensures SamePage(x, y) <==> PageFrame(x) == PageFrame(y)
  {
    assert PageAlign(x) == PageFrame(x) * PageSize;
    assert PageAlign(y) == PageFrame(y) * PageSize;
  }
}
