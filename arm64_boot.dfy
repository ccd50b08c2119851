/**
 * The arm64 path of the handover (`linux_aarch64_exec`): record the initrd
 * in the devicetree when there is one, then jump to the entry point named
 * by the PE/COFF header embedded in the kernel image.
 */
module Arm64Boot {
  import opened Wrappers
  import opened FixedWidth
  import opened Efi
  import opened DeviceTree

  /** `struct arm64_kernel_header`, reduced to `hdr_offset`: where the PE header starts, relative to the image. */
  datatype Arm64KernelHeader = Arm64KernelHeader(hdrOffset: U32)

  /** `struct arm64_linux_pe_header`, reduced to `opt.entry_addr` (AddressOfEntryPoint, image-relative). */
  datatype Arm64PeHeader = Arm64PeHeader(entryAddr: U32)

  /** What the kernel image holds at each address, as the two header views. */
  datatype Arm64Memory = Arm64Memory(kernelHeaderAt: Address -> Arm64KernelHeader, peHeaderAt: Address -> Arm64PeHeader)

  /** `pe`: `linux_addr + hdr->hdr_offset` in 64-bit arithmetic. */
  function PeHeaderAddress(mem: Arm64Memory, linuxAddr: Address): (r: Address)
    ensures r < Two64
    ensures (r - linuxAddr) % Two64 == mem.kernelHeaderAt(linuxAddr).hdrOffset as int
  {
    (linuxAddr + mem.kernelHeaderAt(linuxAddr).hdrOffset as nat) % Two64
  }

  /**
   * The kernel entry: the image base plus the PE header's entry offset,
   * in 64-bit arithmetic. It lies exactly `entry_addr` bytes past the base
   * modulo 2^64, i.e. the header's field is image-relative, not absolute.
   */
  function EntryPoint(mem: Arm64Memory, linuxAddr: Address): (r: Address)
    ensures r < Two64
    ensures (r - linuxAddr) % Two64 == mem.peHeaderAt(PeHeaderAddress(mem, linuxAddr)).entryAddr as int
  {
    var offset := mem.peHeaderAt(PeHeaderAddress(mem, linuxAddr)).entryAddr as nat;
    (linuxAddr + offset) % Two64
  }

  /**
   * `linux_aarch64_exec`. The devicetree is annotated only for a non-empty
   * initrd; the jump passes the image handle as first and third argument;
   * a return from it yields EFI_LOAD_ERROR. `cmdline` is not used on this
   * path.
   */
  method LinuxAarch64Exec(image: Address, systemTable: Address, config: ConfigTable, mem: Arm64Memory,
                          cmdline: Option<seq<Byte>>, linuxAddr: Address, initrdAddr: Address, initrdSize: nat)
    returns (status: Status, annotation: Option<UpdateOutcome>, call: KernelCall)
    modifies Located(config)
    ensures status == Error(LoadError)
    ensures call == KernelCall(EntryPoint(mem, linuxAddr), image, systemTable, image)
    ensures annotation.Some? <==> initrdSize != 0
    ensures OpenFdt(config).Some? ==>
      var fdt := OpenFdt(config).value;
      if initrdSize == 0 then
        fdt.nodes == old(fdt.nodes) && fdt.writes == old(fdt.writes)
      else
        && annotation.value == ExpectedOutcome(Chosen in old(fdt.nodes), fdt.writeFailure, old(fdt.writes))
        && ChosenUpdate(old(fdt.nodes), fdt.nodes, annotation.value, initrdAddr, initrdSize)
    ensures OpenFdt(config).None? ==> annotation.None? || annotation.value == NoDeviceTree
  {
    annotation := None;
    if initrdSize != 0 {
      var outcome := UpdateFdt(config, initrdAddr, initrdSize);
      annotation := Some(outcome);
    }

    var pe := PeHeaderAddress(mem, linuxAddr);
    var entry := (linuxAddr + mem.peHeaderAt(pe).entryAddr as nat) % Two64;

    call := KernelCall(entry, image, systemTable, image);
    status := Error(LoadError);
  }
}
