# systemd-boot kernel handover, modelled in Dafny

This project models the last step of systemd-boot before it jumps into a
Linux kernel (`src/boot/efi/linux.c`):

- **x86** (`linux_exec`, `linux_efi_handover`): check the kernel's setup
  header against version 2.11 of the Linux x86 boot protocol, allocate and
  fill the 16 KiB `boot_params` block, copy the command line below 0xA0000
  with a NUL terminator, and jump to the EFI handover entry.
- **Devicetree** (`open_fdt`, `update_fdt`): find the firmware's flattened
  devicetree through the configuration table, and write
  `linux,initrd-start` and `linux,initrd-end` into `/chosen` as big-endian
  64-bit cells.
- **arm64** (`linux_aarch64_exec`): annotate the devicetree when there is an
  initrd, then jump to the entry named by the PE/COFF header inside the
  image.

Files:

- `wrappers.dfy`: `Option`.
- `fixed_width.dfy` (module `FixedWidth`): byte and 16/32-bit newtypes, the
  truncating `(UINT32)` cast, and the big-endian encoding behind
  `cpu_to_fdt64`. Both round trips of the encoding are proved.
- `efi.dfy` (module `Efi`): statuses, the UINTN width per architecture,
  `EFI_SIZE_TO_PAGES`, and `AllocatePages` with `AllocateMaxAddress`. The
  allocator is a firmware oracle: `answer(k)` is the reply to the k-th
  request, and a grant honours the UEFI address bound. A jump into the
  kernel is recorded as a `KernelCall` value.
- `x86_boot.dfy` (module `X86Boot`): the setup header as a record with the
  C field widths. `boot_params` is a class holding that header and an array
  of the block's other bytes. `LinuxExec` builds it step by step.
- `device_tree.dfy` (module `DeviceTree`): a blob is a class whose root
  subnodes are a map from node name to property map. Each libfdt write may
  fail, as told by a per-blob oracle. `UpdateFdt` mutates the blob in place.
- `arm64_boot.dfy` (module `Arm64Boot`): entry-address arithmetic and
  `LinuxAarch64Exec`.

Details of the code that the model keeps as they are:

- `update_fdt` itself has no test for a zero initrd size; its caller
  `linux_aarch64_exec` makes it (`linux.c:155`).
- `ramdisk_image` and `ramdisk_size` are `(UINT32)` truncations of the
  initrd address and size, with no range check (`linux.c:70-71`).
- `code32_start` is computed in UINT32 arithmetic from
  `(UINT32)linux_addr` (`linux.c:57`).

## Model

| member | source | states |
|---|---|---|
| `FixedWidth.Truncate32` | vendor/systemd/src/boot/efi/linux.c:70-71 | `(UINT32)x` is the 32-bit value congruent to x mod 2^32, never larger than x, and equal to x exactly when x < 2^32 |
| `FixedWidth.FromBigEndian` | vendor/systemd/src/boot/efi/linux.c:130-131 | decoding n big-endian bytes gives a value below 256^n |
| `FixedWidth.BigEndianRoundTrip` | vendor/systemd/src/boot/efi/linux.c:130-131 | a value below 256^n, encoded in n big-endian bytes and decoded, is the value again |
| `FixedWidth.FromBigEndianRoundTrip` | vendor/systemd/src/boot/efi/linux.c:130-131 | any byte string, decoded and re-encoded at its own width, is the string again |
| `FixedWidth.Fdt64` | vendor/systemd/src/boot/efi/linux.c:130-131 | `cpu_to_fdt64` gives 8 bytes that decode big-endian to x mod 2^64 |
| `FixedWidth.Fdt64Injective` | vendor/systemd/src/boot/efi/linux.c:130-131 | two cells are equal exactly when their values agree mod 2^64 |
| `Efi.SizeToPages` | vendor/systemd/src/boot/efi/linux.c:61-62 | `EFI_SIZE_TO_PAGES` is the ceiling: the pages hold the size, and one page fewer would not |
| `Efi.BootServices.Reply` | vendor/systemd/src/boot/efi/linux.c:48-51 | a granted range is page-aligned and ends at or below the requested maximum; a refusal status is passed on unchanged |
| `Efi.BootServices.AllocatePages` | vendor/systemd/src/boot/efi/linux.c:61-64 | each call appends its (pages, max address) request to the log and returns the firmware's reply to it |
| `X86Boot.SetupSectors` | vendor/systemd/src/boot/efi/linux.c:56 | the sector count is `setup_sects` when non-zero and 4 otherwise, so always 1..255 |
| `X86Boot.HeaderValid` | vendor/systemd/src/boot/efi/linux.c:41-45 | the image's header is refused exactly when `boot_flag` is not 0xAA55, `header` is not "HdrS", `version` is below 0x20b, or `relocatable_kernel` is zero |
| `X86Boot.Code32Start` | vendor/systemd/src/boot/efi/linux.c:56-57 | `code32_start` lies (S+1)*512 bytes past the image base mod 2^32, S being the setup sector count, so the base is recoverable from it |
| `X86Boot.Code32StartMeaning` | vendor/systemd/src/boot/efi/linux.c:56-57 | the skip is 2 to 256 sectors; `code32_start` is the plain sum when nothing wraps; setup_sects 0 behaves as 4 |
| `X86Boot.BuiltHeader` | vendor/systemd/src/boot/efi/linux.c:54-57 | the block's header is the image's, except that `type_of_loader` is 0xff and `code32_start`, `cmd_line_ptr` and the ramdisk fields (the image and size, each mod 2^32) are set; it stays valid exactly when the image's was |
| `X86Boot.HandoverEntry` | vendor/systemd/src/boot/efi/linux.c:17-25 | the handover entry is a UINTN address: `code32_start` (+512 on x86_64) + `handover_offset` |
| `X86Boot.HandoverEntryOffset` | vendor/systemd/src/boot/efi/linux.c:19-25 | on x86_64 the sum never wraps, so the entry is exactly `code32_start + 512 + handover_offset`; on ia32 it is `handover_offset` past `code32_start` mod 2^32 |
| `X86Boot.LinuxEfiHandover` | vendor/systemd/src/boot/efi/linux.c:17-27 | the jump passes (image, ST, the block's address) and goes 512 + `handover_offset` bytes past `code32_start` on x86_64, `handover_offset` bytes past it mod 2^32 on ia32 |
| `X86Boot.BootParams.ZeroMem` | vendor/systemd/src/boot/efi/linux.c:53 | after `ZeroMem` the header and every other byte of the block are zero |
| `X86Boot.FillBootParams` | vendor/systemd/src/boot/efi/linux.c:53-57 | after zeroing, the header copy and the two field writes, every byte outside the header is zero and the header is the image's with `type_of_loader` = 0xff and `code32_start` set |
| `X86Boot.CopyCmdline` | vendor/systemd/src/boot/efi/linux.c:65-66 | the fresh pages hold the command line's bytes at 0..len-1 and a NUL at offset len |
| `X86Boot.LinuxExec` | vendor/systemd/src/boot/efi/linux.c:29-75 | an invalid header gives EFI_LOAD_ERROR with no allocation. The requests are 4 pages below 0xFFFFFFFF, then ceil((len+1)/4096) pages below 0xA0000; a refused request returns its status without a jump. On the jump path the block is page-aligned below 4 GiB, zero outside the header, and holds `BuiltHeader`. The command line is copied with its NUL at offset len, and `cmd_line_ptr` is its address; with no command line the image's pointer is kept. The jump targets `HandoverEntry` with (image, ST, block), and a return yields EFI_LOAD_ERROR |
| `DeviceTree.Fdt.HeaderValid` | vendor/systemd/src/boot/efi/linux.c:90 | `fdt_check_header` refuses a blob whose first word is not 0xd00dfeed (Devicetree Specification, section 5.2); with the magic it passes exactly when libfdt's other structural checks pass |
| `DeviceTree.OpenFdt` | vendor/systemd/src/boot/efi/linux.c:77-98 | a blob is found exactly when the devicetree GUID is in the configuration table and its header checks out |
| `DeviceTree.OpenFdtIgnoresOtherTables` | vendor/systemd/src/boot/efi/linux.c:83-84 | the lookup is by the devicetree GUID alone: adding or replacing the table of any other GUID does not change what `open_fdt` returns |
| `DeviceTree.Fdt.AddSubnode` | vendor/systemd/src/boot/efi/linux.c:121 | creating an existing node reports EXISTS; otherwise libfdt's answer decides, and only on success a new empty node appears |
| `DeviceTree.Fdt.SetProp` | vendor/systemd/src/boot/efi/linux.c:133 | on success exactly one property of one node is created or overwritten; on failure the blob is unchanged |
| `DeviceTree.ExpectedOutcome` | vendor/systemd/src/boot/efi/linux.c:119-143 | the update completes exactly when creating `chosen` (if it was absent) and both property writes succeed; `chosen` creation fails only when `chosen` was absent |
| `DeviceTree.SetInitrdProperties` | vendor/systemd/src/boot/efi/linux.c:130-143 | on an existing `/chosen`, the start cell is written first and the end cell only if that succeeded; the first failure ends the update and leaves the blob as it was before the failed write |
| `DeviceTree.UpdateFdt` | vendor/systemd/src/boot/efi/linux.c:109-144 | with no blob or a bad header nothing changes. Otherwise `chosen` is reused or created, and a creation failure writes nothing. `linux,initrd-start` = BE64(addr) is written first; `linux,initrd-end` = BE64(addr+size) only if the start write succeeded. It stops at the first failure, and nothing else in the blob changes |
| `DeviceTree.AnnotatedRecordsInitrd` | vendor/systemd/src/boot/efi/linux.c:130-143 | after a complete update `/chosen` holds two 8-byte cells that decode to the start and to (start+size) mod 2^64, overwriting any old values, and other nodes are untouched |
| `DeviceTree.EndOnlyAfterStart` | vendor/systemd/src/boot/efi/linux.c:133-143 | `linux,initrd-end` changes only in a completed update, and then `linux,initrd-start` holds the start cell; other properties of `/chosen` keep their values |
| `Arm64Boot.PeHeaderAddress` | vendor/systemd/src/boot/efi/linux.c:158-160 | the PE header lies `hdr_offset` bytes past the image base (mod 2^64) |
| `Arm64Boot.EntryPoint` | vendor/systemd/src/boot/efi/linux.c:158-161 | the entry lies `entry_addr` bytes past the image base (mod 2^64): the PE field is image-relative |
| `Arm64Boot.LinuxAarch64Exec` | vendor/systemd/src/boot/efi/linux.c:147-168 | the devicetree is touched only when `initrd_size != 0`, and then exactly as `UpdateFdt` does. The jump goes to `EntryPoint` with (image, ST, image), and a return yields EFI_LOAD_ERROR |

## Left out

- The transfers of control themselves: the calls through `handover_f`, the `regparm(0)` convention on ia32 and `cli` on x86_64. A jump is recorded as a `KernelCall` (entry, arguments). The model always lets it return, which is the only case in which the code goes on.
- Firmware and library code is abstract: `BS->AllocatePages` is an oracle of answers, and `LibGetSystemConfigurationTable` is a map lookup by GUID. `ZeroMem` and `CopyMem` are aggregate array updates.
- libfdt internals: `fdt_check_header` is the magic test plus one abstract flag for its other checks. The success of `fdt_add_subnode` and `fdt_setprop` is an oracle per blob; there is no capacity model. `fdt_totalsize` is not modelled because its only use is a diagnostic.
- `Print` diagnostics and the unused `fdt_size`, `status` and `num_rsv` variables have no behavioural effect.
- The byte layouts of `struct boot_params`, `setup_header`, `arm64_kernel_header` and `arm64_linux_pe_header` are not modelled; `linux.h` is not part of this model. Headers are records with the C field widths. The header's unnamed fields are kept as uninterpreted bytes, and the subset type `Header` fixes their number so that a header is always 0x77 bytes. The 0x77-byte header size is the boot protocol's size up to `handover_offset`.
- Physical memory is not one address space: the kernel image is read through header views (`setupHeaderAt`, `Arm64Memory`). The `boot_params` block is an object that carries its address. The command-line buffer is a separate array. Its address is the allocator's reply, which the contract ties to `cmd_line_ptr`. Overlap and aliasing between these buffers are not captured.
- `Efi.BootServices.Reply`: firmware that grants a range which is not page-aligned, or which ends above the requested maximum, breaks the UEFI contract of `AllocatePages`. The model reads such a grant as the conforming refusal EFI_NOT_FOUND. So `X86Boot.LinuxExec` can then return EFI_NOT_FOUND, although the code would go on with the bad address.
- `X86Boot.LinuxExec`: it requires `cmdline_len + 1` to fit in UINTN. The wrap of `cmdline_len + 1` at the very top of the address range is therefore not modelled.
- `X86Boot.LinuxExec`: on ia32 the code passes a 4-byte pointer variable where `AllocatePages` expects an 8-byte physical address. The model uses the intended maximum of 0xFFFFFFFF and does not capture what the neighbouring stack bytes would do.
- `Arm64Boot.LinuxAarch64Exec`: the command line is accepted but unused, as in the code.
