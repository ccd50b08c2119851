/**
 * Locating the firmware's flattened devicetree (`open_fdt`) and recording
 * the initrd bounds in its `/chosen` node (`update_fdt`), following the
 * Devicetree Specification: the blob header of section 5.2, big-endian
 * cells (chapter 5) and the `/chosen` node of section 3.6.
 *
 * The blob is seen through libfdt, whose code is not part of this model:
 * the root's subnodes are a map from node name to property map, and the
 * success or failure of each libfdt write is an oracle
 * (`writeFailure(k)` is what the k-th write on the blob reports).
 */
module DeviceTree {
  import opened Wrappers
  import opened FixedWidth
  import opened Efi

  type Name = string
  type Properties = map<Name, seq<Byte>>
  /** The subnodes of the root node, by name. */
  type Nodes = map<Name, Properties>

  /** Devicetree Specification, section 5.2: the first header word of every blob. */
  const FdtMagic: U32 := 0xd00dfeed
  const Chosen: Name := "chosen"
  const InitrdStart: Name := "linux,initrd-start"
  const InitrdEnd: Name := "linux,initrd-end"

  datatype Guid = Guid(data1: U32, data2: U16, data3: U16, data4: seq<Byte>)

  /** EFI_DTB_TABLE_GUID, b1b621d5-f19c-41a5-830b-d9152c69aae0. */
  const DtbTableGuid: Guid := Guid(0xb1b621d5, 0xf19c, 0x41a5, [0x83, 0x0b, 0xd9, 0x15, 0x2c, 0x69, 0xaa, 0xe0])

  /** The system table's configuration tables, by vendor GUID. */
  type ConfigTable = map<Guid, Fdt>

  /** The libfdt error codes the writes below can report. */
  datatype FdtError = Exists | NoSpace | BadOffset | OtherFdtError(code: nat)

  /** A flattened devicetree blob, mutated in place. */
  class Fdt {
    const magic: U32
    /** libfdt's remaining `fdt_check_header` tests (version, sizes, block offsets). */
    const layoutValid: bool
    /** What the k-th write on this blob reports; None is success. */
    const writeFailure: nat -> Option<FdtError>
    var nodes: Nodes
    /** Number of writes libfdt has carried out or refused so far. */
    var writes: nat

    constructor (magic: U32, layoutValid: bool, writeFailure: nat -> Option<FdtError>, nodes: Nodes)
      ensures this.magic == magic && this.layoutValid == layoutValid
      ensures this.writeFailure == writeFailure && this.nodes == nodes && writes == 0
    {
      this.magic := magic;
      this.layoutValid := layoutValid;
      this.writeFailure := writeFailure;
      this.nodes := nodes;
      writes := 0;
    }

    /**
     * `fdt_check_header(fdt) == 0`: a blob without the magic word is refused
     * whatever its layout, and one with it is accepted exactly when libfdt's
     * other checks pass.
     */
    predicate HeaderValid(): (r: bool)
      ensures magic != FdtMagic ==> !r
      ensures magic == FdtMagic ==> r == layoutValid
    {
      magic == FdtMagic && layoutValid
    }

    /** `fdt_add_subnode(fdt, 0, name)`: a new, empty subnode of the root. */
    method AddSubnode(name: Name) returns (err: Option<FdtError>)
      modifies this
      ensures name in old(nodes) ==> err == Some(Exists) && nodes == old(nodes) && writes == old(writes)
      ensures name !in old(nodes) ==>
        && err == writeFailure(old(writes))
        && writes == old(writes) + 1
        && nodes == if err.None? then old(nodes)[name := map[]] else old(nodes)
    {
      if name in nodes {
        return Some(Exists);
      }
      err := writeFailure(writes);
      writes := writes + 1;
      if err.None? {
        nodes := nodes[name := map[]];
      }
    }

    /** `fdt_setprop(fdt, node, name, value, |value|)`: create or overwrite a property. */
    method SetProp(node: Name, name: Name, value: seq<Byte>) returns (err: Option<FdtError>)
      modifies this
      ensures node !in old(nodes) ==> err == Some(BadOffset) && nodes == old(nodes) && writes == old(writes)
      ensures node in old(nodes) ==>
        && err == writeFailure(old(writes))
        && writes == old(writes) + 1
        && nodes == if err.None? then old(nodes)[node := old(nodes)[node][name := value]] else old(nodes)
    {
      if node !in nodes {
        return Some(BadOffset);
      }
      err := writeFailure(writes);
      writes := writes + 1;
      if err.None? {
        nodes := nodes[node := nodes[node][name := value]];
      }
    }
  }

  /**
   * `open_fdt`: the blob registered under the devicetree GUID, provided its
   * header passes the check; otherwise no blob.
   */
  function OpenFdt(config: ConfigTable): (r: Option<Fdt>)
    ensures r.Some? <==> DtbTableGuid in config && config[DtbTableGuid].HeaderValid()
    ensures r.Some? ==> r.value == config[DtbTableGuid]
  {
    if DtbTableGuid !in config then None
    else if !config[DtbTableGuid].HeaderValid() then None
    else Some(config[DtbTableGuid])
  }

  /**
   * Only the devicetree entry of the configuration table matters: adding or
   * replacing the table of any other GUID changes nothing `open_fdt` sees.
   */
  lemma OpenFdtIgnoresOtherTables(config: ConfigTable, g: Guid, other: Fdt)
    requires g != DtbTableGuid
    ensures OpenFdt(config[g := other]) == OpenFdt(config)
  {
  }

  /** The blobs `update_fdt` may write to: the located one, if any. */
  function Located(config: ConfigTable): set<Fdt>
  {
    if OpenFdt(config).Some? then {OpenFdt(config).value} else {}
  }

  /** Where `update_fdt` stopped. */
  datatype UpdateOutcome =
    | NoDeviceTree                   // no table entry, or its header is invalid
    | ChosenNotCreated(err: FdtError)
    | StartNotSet(err: FdtError)
    | EndNotSet(err: FdtError)
    | Annotated

  /** The properties of `/chosen` before the update; a newly created node has none. */
  function ChosenProperties(nodes: Nodes): Properties
  {
    if Chosen in nodes then nodes[Chosen] else map[]
  }

  /**
   * The effect of `update_fdt` on the root's subnodes, for each place it can
   * stop: nothing changes unless `/chosen` exists or was created; then
   * `linux,initrd-start` is written, and only after it `linux,initrd-end`.
   */
  ghost predicate ChosenUpdate(before: Nodes, after: Nodes, outcome: UpdateOutcome, initrdAddr: Address, initrdSize: nat)
  {
    var withStart := ChosenProperties(before)[InitrdStart := Fdt64(initrdAddr)];
    match outcome
    case NoDeviceTree => after == before
    case ChosenNotCreated(_) => Chosen !in before && after == before
    case StartNotSet(_) => after == before[Chosen := ChosenProperties(before)]
    case EndNotSet(_) => after == before[Chosen := withStart]
    case Annotated => after == before[Chosen := withStart[InitrdEnd := Fdt64(initrdAddr + initrdSize)]]
  }

  /**
   * Which outcome the libfdt answers lead to, starting at write number `w`:
   * creating `/chosen` (only when absent), then the start property, then
   * the end property; the first failure ends the update.
   */
  function ExpectedOutcome(chosenPresent: bool, writeFailure: nat -> Option<FdtError>, w: nat): (r: UpdateOutcome)
    ensures r != NoDeviceTree
    ensures r.ChosenNotCreated? ==> !chosenPresent
    ensures r == Annotated <==>
      (chosenPresent || writeFailure(w).None?) &&
      (var k := if chosenPresent then w else w + 1; writeFailure(k).None? && writeFailure(k + 1).None?)
  {
    var k := if chosenPresent then w else w + 1;
    if !chosenPresent && writeFailure(w).Some? then ChosenNotCreated(writeFailure(w).value)
    else if writeFailure(k).Some? then StartNotSet(writeFailure(k).value)
    else if writeFailure(k + 1).Some? then EndNotSet(writeFailure(k + 1).value)
    else Annotated
  }

  /**
   * The two property writes of `update_fdt` on an existing `/chosen`: the
   * start cell, then, only if that succeeded, the end cell.
   */
  method SetInitrdProperties(fdt: Fdt, initrdAddr: Address, initrdSize: nat) returns (outcome: UpdateOutcome)
    requires Chosen in fdt.nodes
    modifies fdt
    ensures outcome == ExpectedOutcome(true, fdt.writeFailure, old(fdt.writes))
    ensures ChosenUpdate(old(fdt.nodes), fdt.nodes, outcome, initrdAddr, initrdSize)
  {
    var initrdStart := Fdt64(initrdAddr);
    var initrdEnd := Fdt64(initrdAddr + initrdSize);

    var err := fdt.SetProp(Chosen, InitrdStart, initrdStart);
    if err.Some? {
      return StartNotSet(err.value);
    }
    err := fdt.SetProp(Chosen, InitrdEnd, initrdEnd);
    if err.Some? {
      return EndNotSet(err.value);
    }
    return Annotated;
  }

  /**
   * `update_fdt`. It writes only to the located blob; with no blob it
   * changes nothing. The two properties are the big-endian 64-bit cells of
   * the initrd's start and end (start + size in UINTN arithmetic).
   */
  method UpdateFdt(config: ConfigTable, initrdAddr: Address, initrdSize: nat) returns (outcome: UpdateOutcome)
    modifies Located(config)
    ensures OpenFdt(config).None? ==> outcome == NoDeviceTree
    ensures OpenFdt(config).None? && DtbTableGuid in config ==> unchanged(config[DtbTableGuid])
    ensures OpenFdt(config).Some? ==>
      var fdt := OpenFdt(config).value;
      && outcome == ExpectedOutcome(Chosen in old(fdt.nodes), fdt.writeFailure, old(fdt.writes))
      && ChosenUpdate(old(fdt.nodes), fdt.nodes, outcome, initrdAddr, initrdSize)
  {
    var located := OpenFdt(config);
    if located.None? {
      return NoDeviceTree;
    }
    var fdt := located.value;

    if Chosen in fdt.nodes {
      outcome := SetInitrdProperties(fdt, initrdAddr, initrdSize);
    } else {
      ghost var before, w := fdt.nodes, fdt.writes;
      var err := fdt.AddSubnode(Chosen);
      if err.Some? {
        return ChosenNotCreated(err.value);
      }
      outcome := SetInitrdProperties(fdt, initrdAddr, initrdSize);
      CreatedChosen(before, fdt.nodes, outcome, initrdAddr, initrdSize, fdt.writeFailure, w);
    }
  }

  /** Writing into a just-created, empty `/chosen` is the update that created it. */
  lemma CreatedChosen(before: Nodes, after: Nodes, outcome: UpdateOutcome, initrdAddr: Address, initrdSize: nat,
                      writeFailure: nat -> Option<FdtError>, w: nat)
    requires Chosen !in before && writeFailure(w).None?
    requires outcome == ExpectedOutcome(true, writeFailure, w + 1)
    requires ChosenUpdate(before[Chosen := map[]], after, outcome, initrdAddr, initrdSize)
    ensures outcome == ExpectedOutcome(false, writeFailure, w)
    ensures ChosenUpdate(before, after, outcome, initrdAddr, initrdSize)
  {
    var created := before[Chosen := map[]];
    assert ChosenProperties(created) == ChosenProperties(before);
    var withStart := ChosenProperties(before)[InitrdStart := Fdt64(initrdAddr)];
    assert created[Chosen := ChosenProperties(before)] == before[Chosen := ChosenProperties(before)];
    assert created[Chosen := withStart] == before[Chosen := withStart];
    assert created[Chosen := withStart[InitrdEnd := Fdt64(initrdAddr + initrdSize)]]
        == before[Chosen := withStart[InitrdEnd := Fdt64(initrdAddr + initrdSize)]];
  }

  /**
   * After a complete update `/chosen` holds two 8-byte big-endian cells
   * that decode to the initrd's start and its end (start + size modulo
   * 2^64), whatever the node held before; every other node is untouched.
   */
  lemma AnnotatedRecordsInitrd(before: Nodes, after: Nodes, initrdAddr: Address, initrdSize: nat)
    requires ChosenUpdate(before, after, Annotated, initrdAddr, initrdSize)
    ensures Chosen in after && InitrdStart in after[Chosen] && InitrdEnd in after[Chosen]
    ensures |after[Chosen][InitrdStart]| == 8 && FromBigEndian(after[Chosen][InitrdStart]) == initrdAddr % Two64
    ensures |after[Chosen][InitrdEnd]| == 8 && FromBigEndian(after[Chosen][InitrdEnd]) == (initrdAddr + initrdSize) % Two64
    ensures forall n :: n in before && n != Chosen ==> n in after && after[n] == before[n]
  {
  }

  /**
   * Whatever the outcome, `linux,initrd-end` differs from its old value only
   * if `linux,initrd-start` now holds the start cell, and no node other than
   * `/chosen` and no other property of it changes.
   */
  lemma EndOnlyAfterStart(before: Nodes, after: Nodes, outcome: UpdateOutcome, initrdAddr: Address, initrdSize: nat, p: Name)
    requires ChosenUpdate(before, after, outcome, initrdAddr, initrdSize)
    requires Chosen in after && InitrdEnd in after[Chosen]
    requires Chosen !in before || InitrdEnd !in before[Chosen] || before[Chosen][InitrdEnd] != after[Chosen][InitrdEnd]
    ensures outcome == Annotated
    ensures InitrdStart in after[Chosen] && after[Chosen][InitrdStart] == Fdt64(initrdAddr)
    ensures p != InitrdStart && p != InitrdEnd ==>
      (p in after[Chosen] <==> p in ChosenProperties(before)) &&
      (p in after[Chosen] ==> after[Chosen][p] == ChosenProperties(before)[p])
  {
  }
}
