/**
 * The x86 path of the handover: `linux_exec` checks the kernel's setup
 * header against version 2.11 of the Linux x86 boot protocol, builds the
 * 16 KiB `boot_params` block ("zero page") and a low-memory copy of the
 * command line, and jumps to the kernel's EFI handover entry
 * (`linux_efi_handover`).
 */
module X86Boot {
  import opened Wrappers
  import opened FixedWidth
  import opened Efi

  /** "HdrS", the setup header's magic. */
  const SetupMagic: U32 := 0x53726448
  const BootSectorFlag: U16 := 0xAA55
  /** Protocol 2.11, the first with `handover_offset`. */
  const MinProtocolVersion: U16 := 0x020b
  /** `type_of_loader` 0xff: a boot loader without an assigned id. */
  const UndefinedLoader: Byte := 0xff
  const SectorBytes: nat := 512
  /** The protocol's reading of `setup_sects == 0`. */
  const DefaultSetupSectors: nat := 4

  const BootParamsBytes: nat := 0x4000
  /** The block must be addressable with 32 bits. */
  const BootParamsMaxAddress: Address := 0xFFFF_FFFF
  /** The command line must lie below the start of the EBDA / video memory. */
  const CmdLineMaxAddress: Address := 0xA0000
  /** Size of `struct setup_header` up to and including `handover_offset` (0x1f1..0x267). */
  const SetupHeaderBytes: nat := 0x77
  /** Bytes taken by the fields of the header that this model names. */
  const NamedHeaderBytes: nat := 31
  /** Bytes of the header's other, uninterpreted fields. */
  const OtherHeaderBytes: nat := SetupHeaderBytes - NamedHeaderBytes

  /**
   * The fields of `struct setup_header` that `linux_exec` reads or writes,
   * at their C widths; `otherFields` holds the bytes of every other field,
   * which are copied but not interpreted.
   */
  datatype SetupHeader = SetupHeader(
    setupSects: Byte,
    bootFlag: U16,
    header: U32,
    version: U16,
    typeOfLoader: Byte,
    code32Start: U32,
    ramdiskImage: U32,
    ramdiskSize: U32,
    cmdLinePtr: U32,
    relocatableKernel: Byte,
    handoverOffset: U32,
    otherFields: seq<Byte>)

  /** A setup header as it lies in memory: exactly `SetupHeaderBytes` long. */
  type Header = h: SetupHeader | |h.otherFields| == OtherHeaderBytes
    witness SetupHeader(0, 0, 0, 0, 0, 0, 0, 0, 0, 0, 0, seq(OtherHeaderBytes, _ => 0))

  function ZeroHeader(): (r: Header)
    ensures r.otherFields == Zeros(OtherHeaderBytes)
  {
    SetupHeader(0, 0, 0, 0, 0, 0, 0, 0, 0, 0, 0, Zeros(OtherHeaderBytes))
  }

  /**
   * The four checks `linux_exec` makes before touching memory: the header
   * is refused as soon as one of them fails.
   */
  predicate HeaderValid(h: SetupHeader): (r: bool)
    ensures !r <==> (h.bootFlag != BootSectorFlag || h.header != SetupMagic ||
                     h.version < MinProtocolVersion || h.relocatableKernel == 0)
  {
    && h.bootFlag == BootSectorFlag
    && h.header == SetupMagic
    && h.version >= MinProtocolVersion
    && h.relocatableKernel != 0
  }

  /** `setup_sects`, with 0 read as the protocol's default of 4. */
  function SetupSectors(setupSects: Byte): (r: nat)
    ensures 0 < r < 0x100
    ensures setupSects != 0 ==> r == setupSects as nat
    ensures setupSects == 0 ==> r == DefaultSetupSectors
  {
    if setupSects > 0 then setupSects as nat else DefaultSetupSectors
  }

  /**
   * `code32_start`: the 32-bit protected-mode entry, one boot sector plus
   * the setup sectors past the image base, computed in UINT32 arithmetic.
   */
  function Code32Start(linuxAddr: Address, setupSects: Byte): (r: U32)
    ensures (r as int - (SetupSectors(setupSects) + 1) * SectorBytes) % Two32 == linuxAddr % Two32
  {
    Truncate32(Truncate32(linuxAddr) as nat + (SetupSectors(setupSects) + 1) * SectorBytes)
  }

  /**
   * The setup code takes 2 to 256 sectors; when nothing wraps `code32_start`
   * is the plain sum; and `setup_sects == 0` gives the same address as 4.
   */
  lemma Code32StartMeaning(linuxAddr: Address, setupSects: Byte)
    ensures var skip := (SetupSectors(setupSects) + 1) * SectorBytes;
      && 2 * SectorBytes <= skip <= 0x100 * SectorBytes
      && (linuxAddr + skip < Two32 ==> Code32Start(linuxAddr, setupSects) as int == linuxAddr + skip)
    ensures setupSects == 0 ==> Code32Start(linuxAddr, 0) == Code32Start(linuxAddr, DefaultSetupSectors as Byte)
  {
  }

  /**
   * The header as `linux_exec` leaves it in the block: the image's header
   * with the loader id, `code32_start`, the command-line pointer and the
   * two ramdisk fields overwritten. Every other field, and so the header's
   * validity, is the image's.
   */
  function BuiltHeader(h: Header, linuxAddr: Address, cmdLinePtr: U32, initrdAddr: Address, initrdSize: nat): (r: Header)
    ensures r.typeOfLoader == UndefinedLoader
    ensures r.code32Start == Code32Start(linuxAddr, h.setupSects)
    ensures r.cmdLinePtr == cmdLinePtr
    ensures r.ramdiskImage as int == initrdAddr % Two32 && r.ramdiskSize as int == initrdSize % Two32
    ensures r.setupSects == h.setupSects && r.bootFlag == h.bootFlag && r.header == h.header
    ensures r.version == h.version && r.relocatableKernel == h.relocatableKernel
    ensures r.handoverOffset == h.handoverOffset && r.otherFields == h.otherFields
    ensures HeaderValid(r) == HeaderValid(h)
  {
    h.(typeOfLoader := UndefinedLoader,
       code32Start := Code32Start(linuxAddr, h.setupSects),
       cmdLinePtr := cmdLinePtr,
       ramdiskImage := Truncate32(initrdAddr),
       ramdiskSize := Truncate32(initrdSize))
  }

  /**
   * The entry `linux_efi_handover` jumps to: `code32_start` widened to
   * UINTN, 512 further on x86_64 (the 64-bit handover entry), plus
   * `handover_offset`, in UINTN arithmetic.
   */
  function HandoverEntry(arch: X86Arch, code32Start: U32, handoverOffset: U32): (r: Address)
    ensures r < WordModulus(arch)
  {
    var start := code32Start as nat + (if arch == X64 then 512 else 0);
    (start + handoverOffset as nat) % WordModulus(arch)
  }

  /**
   * On x86_64 the sum cannot wrap, so the entry lies exactly 512 +
   * `handover_offset` bytes past `code32_start`; on ia32 it lies
   * `handover_offset` bytes past it modulo 2^32.
   */
  lemma HandoverEntryOffset(arch: X86Arch, code32Start: U32, handoverOffset: U32)
    ensures arch == X64 ==> HandoverEntry(arch, code32Start, handoverOffset) == code32Start as nat + 512 + handoverOffset as nat
    ensures arch == Ia32 ==> (HandoverEntry(arch, code32Start, handoverOffset) - code32Start as int) % Two32 == handoverOffset as int
  {
  }

  /** The 16 KiB `boot_params` block at its physical address. */
  class BootParams {
    const address: Address
    /** The `hdr` member, at offset 0x1f1 of the block. */
    var hdr: Header
    /** Every byte of the block outside `hdr`. */
    const rest: array<Byte>

    /** The header and the other bytes make up the whole 16 KiB block. */
    ghost predicate Valid()
      reads this
    {
      && |hdr.otherFields| == SetupHeaderBytes - NamedHeaderBytes
      && rest.Length == BootParamsBytes - SetupHeaderBytes
    }

    /** Freshly allocated pages: contents unspecified. */
    constructor Allocated(address: Address)
      ensures Valid() && this.address == address && fresh(rest)
    {
      this.address := address;
      rest := new Byte[BootParamsBytes - SetupHeaderBytes];
    }

    /** `ZeroMem(boot_params, 0x4000)`. */
    method ZeroMem()
      requires Valid()
      modifies this, rest
      ensures Valid() && hdr == ZeroHeader()
      ensures forall i :: 0 <= i < rest.Length ==> rest[i] == 0
    {
      hdr := ZeroHeader();
      forall i | 0 <= i < rest.Length {
        rest[i] := 0;
      }
    }
  }

  /**
   * The jump `linux_efi_handover` makes, with (image, ST, params): on x86_64
   * to 512 + `handover_offset` bytes past `code32_start`, on ia32 to
   * `handover_offset` bytes past it in 32-bit arithmetic.
   */
  function LinuxEfiHandover(arch: X86Arch, image: Address, systemTable: Address, params: BootParams): (r: KernelCall)
    reads params
    ensures r.image == image && r.systemTable == systemTable && r.third == params.address
    ensures arch == X64 ==> r.entry == params.hdr.code32Start as nat + 512 + params.hdr.handoverOffset as nat
    ensures arch == Ia32 ==> (r.entry - params.hdr.code32Start as int) % Two32 == params.hdr.handoverOffset as int
  {
    HandoverEntryOffset(arch, params.hdr.code32Start, params.hdr.handoverOffset);
    KernelCall(HandoverEntry(arch, params.hdr.code32Start, params.hdr.handoverOffset), image, systemTable, params.address)
  }

  /**
   * The block after `ZeroMem`, the header copy and the writes of
   * `type_of_loader` and `code32_start`: zero outside the header, and the
   * image's header with those two fields replaced.
   */
  method FillBootParams(params: BootParams, h: Header, linuxAddr: Address)
    requires params.Valid()
    modifies params, params.rest
    ensures params.Valid()
    ensures forall i :: 0 <= i < params.rest.Length ==> params.rest[i] == 0
    ensures params.hdr == h.(typeOfLoader := UndefinedLoader, code32Start := Code32Start(linuxAddr, h.setupSects))
  {
    params.ZeroMem();
    params.hdr := h;
    params.hdr := params.hdr.(typeOfLoader := UndefinedLoader);
    var setupSectors := SetupSectors(h.setupSects);
    params.hdr := params.hdr.(code32Start := Truncate32(Truncate32(linuxAddr) as nat + (setupSectors + 1) * SectorBytes));
  }

  /** The command line copied into `pages` fresh pages, then its NUL terminator. */
  method CopyCmdline(line: seq<Byte>, pages: nat) returns (buf: array<Byte>)
    requires |line| < pages * PageSize
    ensures fresh(buf) && buf.Length == pages * PageSize
    ensures buf[..|line|] == line && buf[|line|] == 0
  {
    buf := new Byte[pages * PageSize];
    forall i | 0 <= i < |line| {
      buf[i] := line[i];
    }
    buf[|line|] := 0;
  }

  /**
   * `linux_exec`. `setupHeaderAt(a)` is the setup header of whatever image
   * is loaded at address `a`; `cmdline` is the `cmdline` pointer (None for
   * NULL) with its `cmdline_len` bytes. A `call` is the jump into the
   * kernel; if it returns, the status is EFI_LOAD_ERROR.
   */
  method LinuxExec(arch: X86Arch, image: Address, systemTable: Address, bs: BootServices,
                   setupHeaderAt: Address -> Header, cmdline: Option<seq<Byte>>,
                   linuxAddr: Address, initrdAddr: Address, initrdSize: nat)
    returns (status: Status, params: BootParams?, cmdlineBuf: array?<Byte>, call: Option<KernelCall>)
    requires cmdline.Some? ==> |cmdline.value| + 1 < WordModulus(arch)
    modifies bs
    ensures call.Some? ==> status == Error(LoadError)
    // header check: fail before any allocation
    ensures !HeaderValid(setupHeaderAt(linuxAddr)) ==>
      status == Error(LoadError) && call.None? && bs.requests == old(bs.requests)
    // first allocation: 4 pages ending at or below 0xFFFFFFFF; a refusal is returned as is
    ensures HeaderValid(setupHeaderAt(linuxAddr)) ==>
      var first := bs.Reply(|old(bs.requests)|, 4, BootParamsMaxAddress);
      && |bs.requests| > |old(bs.requests)|
      && bs.requests[..|old(bs.requests)| + 1] == old(bs.requests) + [PageRequest(4, BootParamsMaxAddress)]
      && (first.AllocFailed? ==> status == Error(first.error) && call.None? && |bs.requests| == |old(bs.requests)| + 1)
      && (first.Allocated? ==> params != null && fresh(params) && params.address == first.addr)
    // no command line: no second allocation, and the jump happens
    ensures HeaderValid(setupHeaderAt(linuxAddr)) && bs.Reply(|old(bs.requests)|, 4, BootParamsMaxAddress).Allocated? && cmdline.None? ==>
      bs.requests == old(bs.requests) + [PageRequest(4, BootParamsMaxAddress)] && call.Some?
    // command line: ceil((len+1)/4096) pages ending at or below 0xA0000
    ensures HeaderValid(setupHeaderAt(linuxAddr)) && bs.Reply(|old(bs.requests)|, 4, BootParamsMaxAddress).Allocated? && cmdline.Some? ==>
      var pages := SizeToPages(|cmdline.value| + 1);
      var second := bs.Reply(|old(bs.requests)| + 1, pages, CmdLineMaxAddress);
      && bs.requests == old(bs.requests) + [PageRequest(4, BootParamsMaxAddress), PageRequest(pages, CmdLineMaxAddress)]
      && (second.AllocFailed? ==> status == Error(second.error) && call.None?)
      && (second.Allocated? ==>
            && call.Some?
            && cmdlineBuf != null && fresh(cmdlineBuf)
            && cmdlineBuf.Length == pages * PageSize
            && second.addr + cmdlineBuf.Length <= CmdLineMaxAddress + 1
            && cmdlineBuf[..|cmdline.value|] == cmdline.value
            && cmdlineBuf[|cmdline.value|] == 0
            && params != null && params.hdr.cmdLinePtr as int == second.addr)
    // the block handed to the kernel
    ensures call.Some? ==>
      var h := setupHeaderAt(linuxAddr);
      var cmdLinePtr := if cmdline.None? then h.cmdLinePtr else params.hdr.cmdLinePtr;
      && HeaderValid(h)
      && params != null && params.Valid() && fresh(params.rest)
      && params.address % PageSize == 0 && params.address + BootParamsBytes <= BootParamsMaxAddress + 1
      && (forall i :: 0 <= i < params.rest.Length ==> params.rest[i] == 0)
      && params.hdr == BuiltHeader(h, linuxAddr, cmdLinePtr, initrdAddr, initrdSize)
      && call.value == LinuxEfiHandover(arch, image, systemTable, params)
  {
    var imageHeader := setupHeaderAt(linuxAddr);
    if !HeaderValid(imageHeader) {
      return Error(LoadError), null, null, None;
    }

    var r := bs.AllocatePages(SizeToPages(BootParamsBytes), BootParamsMaxAddress);
    if r.AllocFailed? {
      return Error(r.error), null, null, None;
    }
    params := new BootParams.Allocated(r.addr);
    FillBootParams(params, imageHeader, linuxAddr);

    cmdlineBuf := null;
    if cmdline.Some? {
      var pages := SizeToPages((|cmdline.value| + 1) % WordModulus(arch));
      var c := bs.AllocatePages(pages, CmdLineMaxAddress);
      if c.AllocFailed? {
        return Error(c.error), params, null, None;
      }
      cmdlineBuf := CopyCmdline(cmdline.value, pages);
      params.hdr := params.hdr.(cmdLinePtr := Truncate32(c.addr));
    }

    params.hdr := params.hdr.(ramdiskImage := Truncate32(initrdAddr));
    params.hdr := params.hdr.(ramdiskSize := Truncate32(initrdSize));

    call := Some(LinuxEfiHandover(arch, image, systemTable, params));
    status := Error(LoadError);
  }
}
