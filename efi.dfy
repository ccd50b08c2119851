/**
 * The slice of UEFI the handover code relies on: status codes, the
 * architecture's word width (UINTN), page-granular allocation with
 * `AllocateMaxAddress`, and the record of a jump into kernel code.
 *
 * The firmware's allocator is not visible, so it is an oracle: `answer(k)`
 * is what the firmware replies to the k-th `AllocatePages` request. The
 * model only relies on what the UEFI specification promises of a
 * successful `AllocateMaxAddress` request: page alignment and an
 * uppermost address no higher than the requested maximum.
 */
module Efi {

  /** UINTN and EFI_HANDLE / pointer values are plain addresses. */
  type Address = nat

  /** The error kinds that reach the callers of the handover code. */
  datatype ErrorCode =
    | LoadError          // EFI_LOAD_ERROR
    | InvalidParameter   // EFI_INVALID_PARAMETER
    | OutOfResources     // EFI_OUT_OF_RESOURCES
    | NotFound           // EFI_NOT_FOUND
    | OtherError(code: nat)

  /** EFI_STATUS; `EFI_ERROR(s)` is `s.Error?`. */
  datatype Status = Success | Error(code: ErrorCode)

  datatype Arch = Ia32 | X64 | AArch64

  type X86Arch = a: Arch | a != AArch64 witness X64

  /** 2^(bits of UINTN) on each architecture. */
  function WordModulus(arch: Arch): (m: nat)
    ensures m == 0x1_0000_0000 || m == 0x1_0000_0000_0000_0000
    ensures m == 0x1_0000_0000 <==> arch == Ia32
  {
    if arch == Ia32 then 0x1_0000_0000 else 0x1_0000_0000_0000_0000
  }

  const PageSize: nat := 4096

  /**
   * EFI_SIZE_TO_PAGES: `(size >> 12) + ((size & 0xFFF) ? 1 : 0)`, the
   * fewest whole pages that hold `size` bytes.
   */
  function SizeToPages(size: nat): (pages: nat)
    ensures pages * PageSize >= size
    ensures pages == 0 || (pages - 1) * PageSize < size
  {
    size / PageSize + (if size % PageSize != 0 then 1 else 0)
  }

  /** What the firmware answers to one `AllocatePages` call. */
  datatype AllocAnswer = Grant(addr: Address) | Refuse(error: ErrorCode)

  /** What `AllocatePages` returns to its caller. */
  datatype AllocResult = Allocated(addr: Address) | AllocFailed(error: ErrorCode)

  /** One `AllocatePages(AllocateMaxAddress, EfiLoaderData, pages, &maxAddress)` call. */
  datatype PageRequest = PageRequest(pages: nat, maxAddress: Address)

  /** The boot-services table, reduced to page allocation. */
  class BootServices {
    /** The firmware's answer to the k-th allocation request. */
    const answer: nat -> AllocAnswer
    /** Every allocation request made so far, in order. */
    var requests: seq<PageRequest>

    constructor (answer: nat -> AllocAnswer)
      ensures this.answer == answer && requests == []
    {
      this.answer := answer;
      requests := [];
    }

    /**
     * The result of the k-th request: on success a page-aligned range of
     * `pages` pages whose last byte is at or below `maxAddress`; a refusal
     * is passed through unchanged. A grant that would break the bound is
     * not something a conforming firmware gives, and reads as EFI_NOT_FOUND.
     */
    function Reply(k: nat, pages: nat, maxAddress: Address): (r: AllocResult)
      ensures r.Allocated? ==> r.addr % PageSize == 0 && r.addr + pages * PageSize <= maxAddress + 1
      ensures answer(k).Refuse? ==> r == AllocFailed(answer(k).error)
      ensures answer(k).Grant? ==> r.Allocated? == (answer(k).addr % PageSize == 0 && answer(k).addr + pages * PageSize <= maxAddress + 1)
    {
      match answer(k)
      case Refuse(e) => AllocFailed(e)
      case Grant(a) =>
        if a % PageSize == 0 && a + pages * PageSize <= maxAddress + 1 then Allocated(a) else AllocFailed(NotFound)
    }

    /** `BS->AllocatePages` with `AllocateMaxAddress`. */
    method AllocatePages(pages: nat, maxAddress: Address) returns (r: AllocResult)
      modifies this
      ensures requests == old(requests) + [PageRequest(pages, maxAddress)]
      ensures r == Reply(|old(requests)|, pages, maxAddress)
    {
      r := Reply(|requests|, pages, maxAddress);
      requests := requests + [PageRequest(pages, maxAddress)];
    }
  }

  /**
   * One transfer of control into kernel code: the computed entry address
   * and the three arguments passed to it (image handle, system table, and
   * a third pointer whose meaning depends on the architecture).
   */
  datatype KernelCall = KernelCall(entry: Address, image: Address, systemTable: Address, third: Address)
}
