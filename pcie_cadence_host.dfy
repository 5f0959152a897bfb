/** Cadence PCIe host controller (drivers/pci/controller/cadence/pcie-cadence-host.c):
    how a configuration access is routed and programmed, the link wait and
    Gen2 retrain sequence, the root port's identity registers and the
    allocation of outbound address-translation regions.

    The register file is a map from register to value. The bit-field macros
    of pcie-cadence.h are opaque encoders here: the value the code builds for
    one register by OR-ing several of them becomes one constructor of RegVal
    that keeps the fields they pack, so the model says which fields were
    written without fixing their bit positions. Registers the code reads as
    numbers hold Bits values; a register absent from the map reads as zero.
    The link state a poll of cdns_pcie_link_up sees is an input: `linkUpAt(k)`
    is what the k-th poll since the controller was set up observes. */
module CadenceHost {
  import opened Kernel

  // include/uapi/linux/pci_regs.h
  const PCI_DEVICE_ID: nat := 0x02
  const PCI_CLASS_REVISION: nat := 0x08
  const PCI_CLASS_PROG: nat := 0x09
  const PCI_CLASS_DEVICE: nat := 0x0a
  const PCI_CLASS_BRIDGE_PCI: bv32 := 0x0604
  const PCI_EXP_LNKCAP: nat := 0x0c
  const PCI_EXP_LNKCTL: nat := 0x10
  const PCI_EXP_LNKSTA: nat := 0x12
  const PCI_EXP_LNKCAP_SLS: bv32 := 0x0000000f
  const PCI_EXP_LNKCAP_SLS_2_5GB: bv32 := 0x00000001
  const PCI_EXP_LNKSTA_CLS: bv32 := 0x000f
  const PCI_EXP_LNKSTA_CLS_2_5GB: bv32 := 0x0001
  const PCI_EXP_LNKCTL_RL: bv32 := 0x0020

  // include/linux/ioport.h
  const IORESOURCE_TYPE_BITS: bv32 := 0x00001f00
  const IORESOURCE_IO: bv32 := 0x00000100
  const IORESOURCE_MEM: bv32 := 0x00000200

  // pcie-cadence.h
  const CDNS_PCIE_RP_CAP_OFFSET: nat := 0xc0
  const LINK_WAIT_MAX_RETRIES: nat := 10

  /** The sentinel of an identity register left at its default. */
  const ID_UNSET: int := 0xffff

  type u16 = x: int | 0 <= x < 0x1_0000
  /** A C `int`. */
  type CInt = x: int | -0x8000_0000 <= x < 0x8000_0000

  /** The registers this core touches. */
  datatype Reg =
    | LmLinkStatus               // CDNS_PCIE_LM_BASE; bit 0 is "link up"
    | AtLinkdown                 // CDNS_PCIE_AT_LINKDOWN
    | ObRegionPciAddr0(region: nat)
    | ObRegionDesc0(region: nat)
    | ObRegion(region: nat)      // what cdns_pcie_set_outbound_region programs for a region
    | LmRcBarCfg                 // CDNS_PCIE_LM_RC_BAR_CFG
    | LmId                       // CDNS_PCIE_LM_ID
    | Rp(offset: nat)            // root-port configuration space, at CDNS_PCIE_RP_BASE + offset

  datatype CfgType = ConfType0 | ConfType1
  datatype BarCtrl = BarDisabled

  /** Register contents: Bits is a plain number; every other constructor is
      the OR of the opaque field macros that build one such register value. */
  datatype RegVal =
    | Bits(v: bv32)
    | PciAddr0(nbits: nat, devfn: nat, bus: nat)
    | Desc0(hardcodedRid: bool, devfn: nat, cfgType: CfgType)
    | Outbound(fn: nat, isIo: bool, cpuAddr: nat, pciAddr: nat, size: nat)
    | RcBarCfg(bar0: BarCtrl, bar1: BarCtrl, prefetchMemEnable: bool, prefetchMem64: bool,
               ioEnable: bool, io32: bool)
    | LmIdVal(vendor: u16, subsys: u16)

  type Regs = map<Reg, RegVal>

  const LNKCAP_REG: Reg := Rp(CDNS_PCIE_RP_CAP_OFFSET + PCI_EXP_LNKCAP)
  const LNKCTL_REG: Reg := Rp(CDNS_PCIE_RP_CAP_OFFSET + PCI_EXP_LNKCTL)
  const LNKSTA_REG: Reg := Rp(CDNS_PCIE_RP_CAP_OFFSET + PCI_EXP_LNKSTA)

  /** The value init_root_port writes to the root complex BAR configuration:
      BAR0 and BAR1 disabled, 64-bit prefetchable memory and 32-bit I/O
      windows enabled. */
  const RC_BAR_CONFIG: RegVal := RcBarCfg(BarDisabled, BarDisabled, true, true, true, true)

  /** cdns_pcie_readl */
  function ReadL(regs: Regs, r: Reg): bv32 {
    if r in regs && regs[r].Bits? then regs[r].v else 0
  }

  /** cdns_pcie_rp_readw: the low half-word. */
  function ReadW(regs: Regs, r: Reg): (w: bv32)
    ensures w <= 0xffff
  {
    ReadL(regs, r) & 0xffff
  }

  // ---------------------------------------------------------------------------
  // Configuration-space mapping

  datatype Base = RegBase | CfgBase
  /** A returned `void __iomem *`: which mapping and the offset added to it. */
  datatype MmioAddr = MmioAddr(base: Base, offset: nat)

  /** `where & 0xfff` on a two's-complement `int`: the low twelve bits, which
      is the remainder modulo 0x1000 also for a negative `where`. */
  function ConfigOffset(where: CInt): (off: nat)
    ensures off < 0x1000
    ensures (where - off) % 0x1000 == 0
  {
    where % 0x1000
  }

  predicate LinkUpBit(regs: Regs) {
    ReadL(regs, LmLinkStatus) & 0x1 != 0
  }

  // ---------------------------------------------------------------------------
  // Link wait and retrain

  /** Which of the `n` polls from poll number `start` is the first to see the
      link up, if any. */
  function FirstLinkUp(linkUpAt: nat -> bool, start: nat, n: nat): (k: Option<nat>)
    ensures k.Some? ==> k.value < n && linkUpAt(start + k.value)
    ensures k.Some? ==> forall p :: start <= p < start + k.value ==> !linkUpAt(p)
    ensures k.None? <==> forall p :: start <= p < start + n ==> !linkUpAt(p)
  {
    if n == 0 then None
    else
      var earlier := FirstLinkUp(linkUpAt, start, n - 1);
      if earlier.Some? then earlier
      else if linkUpAt(start + (n - 1)) then Some(n - 1)
      else None
  }

  /** Result of one cdns_pcie_host_wait_for_link and the polls it made. */
  datatype WaitOutcome = WaitOutcome(ret: int, polls: nat)

  /** What cdns_pcie_host_wait_for_link does when its first poll is poll
      number `start`: 0 right after the first poll that sees the link up,
      -ETIMEDOUT after LINK_WAIT_MAX_RETRIES polls that all saw it down. */
  function WaitSpec(linkUpAt: nat -> bool, start: nat): (w: WaitOutcome)
    ensures w.ret == 0 || w.ret == -ETIMEDOUT
    ensures 1 <= w.polls <= LINK_WAIT_MAX_RETRIES
    ensures w.ret == 0 ==>
              linkUpAt(start + w.polls - 1) && forall p :: start <= p < start + w.polls - 1 ==> !linkUpAt(p)
    ensures w.ret == -ETIMEDOUT <==>
              w.polls == LINK_WAIT_MAX_RETRIES && forall p :: start <= p < start + LINK_WAIT_MAX_RETRIES ==> !linkUpAt(p)
  {
    match FirstLinkUp(linkUpAt, start, LINK_WAIT_MAX_RETRIES)
    case Some(k) => WaitOutcome(0, k + 1)
    case None => WaitOutcome(-ETIMEDOUT, LINK_WAIT_MAX_RETRIES)
  }

  /** The speed the root port supports, from Link Capabilities. */
  function SupportedSpeed(regs: Regs): bv32 {
    ReadL(regs, LNKCAP_REG) & PCI_EXP_LNKCAP_SLS
  }

  /** The speed the link runs at, from Link Status. */
  function CurrentSpeed(regs: Regs): bv32 {
    ReadW(regs, LNKSTA_REG) & PCI_EXP_LNKSTA_CLS
  }

  /** The port supports more than 2.5 GT/s but the link trained at 2.5 GT/s. */
  predicate NeedsRetrain(regs: Regs)
    ensures NeedsRetrain(regs) ==> CurrentSpeed(regs) < SupportedSpeed(regs)
  {
    SupportedSpeed(regs) > PCI_EXP_LNKCAP_SLS_2_5GB && CurrentSpeed(regs) == PCI_EXP_LNKSTA_CLS_2_5GB
  }

  /** The register file after the read-modify-write of Link Control that sets
      Retrain Link: that bit is set, every other bit of the half-word is kept,
      and no other register changes. */
  function WithRetrainBit(regs: Regs): (r: Regs)
    ensures r.Keys == regs.Keys + {LNKCTL_REG}
    ensures forall k :: k in regs && k != LNKCTL_REG ==> r[k] == regs[k]
    ensures ReadW(r, LNKCTL_REG) & PCI_EXP_LNKCTL_RL == PCI_EXP_LNKCTL_RL
    ensures ReadW(r, LNKCTL_REG) & !PCI_EXP_LNKCTL_RL == ReadW(regs, LNKCTL_REG) & !PCI_EXP_LNKCTL_RL
  {
    regs[LNKCTL_REG := Bits(ReadW(regs, LNKCTL_REG) | PCI_EXP_LNKCTL_RL)]
  }

  // ---------------------------------------------------------------------------
  // Root port identity

  /** The registers cdns_pcie_host_init_root_port writes: the identity
      registers only when they were configured (not the 0xffff sentinel). */
  function RootPortWritten(vendorId: u16, deviceId: u16): (s: set<Reg>)
    ensures LmId in s <==> vendorId != ID_UNSET
    ensures Rp(PCI_DEVICE_ID) in s <==> deviceId != ID_UNSET
  {
    {LmRcBarCfg, Rp(PCI_CLASS_REVISION), Rp(PCI_CLASS_PROG), Rp(PCI_CLASS_DEVICE)}
    + (if vendorId != ID_UNSET then {LmId} else {})
    + (if deviceId != ID_UNSET then {Rp(PCI_DEVICE_ID)} else {})
  }

  // ---------------------------------------------------------------------------
  // Outbound region allocation

  /** One `struct of_pci_range` from the device tree. */
  datatype PciRange = PciRange(flags: bv32, cpuAddr: nat, pciAddr: nat, size: nat)

  predicate IsMem(r: PciRange) {
    r.flags & IORESOURCE_TYPE_BITS == IORESOURCE_MEM
  }

  predicate IsIo(r: PciRange) {
    r.flags & IORESOURCE_TYPE_BITS == IORESOURCE_IO
  }

  /** What cdns_pcie_set_outbound_region programs for a range (function 0). */
  function OutboundOf(r: PciRange): RegVal {
    Outbound(0, IsIo(r), r.cpuAddr, r.pciAddr, r.size)
  }

  /** The MEM and IO ranges, in device-tree order. */
  function MemIoRanges(ranges: seq<PciRange>): (e: seq<PciRange>)
    ensures |e| <= |ranges|
    ensures forall i :: 0 <= i < |e| ==> (IsMem(e[i]) || IsIo(e[i])) && e[i] in ranges
  {
    if ranges == [] then []
    else
      var last := ranges[|ranges| - 1];
      MemIoRanges(ranges[..|ranges| - 1]) + (if IsMem(last) || IsIo(last) then [last] else [])
  }

  /** Regions 1 .. maxRegions - 1 are available (region 0 is for config
      accesses). */
  function Capacity(maxRegions: nat): nat {
    if maxRegions == 0 then 0 else maxRegions - 1
  }

  /** The ranges that receive a region, in the order of their regions. */
  function Plan(ranges: seq<PciRange>, maxRegions: nat): (p: seq<PciRange>)
    ensures |p| <= Capacity(maxRegions) && |p| <= |MemIoRanges(ranges)|
    ensures |p| == |MemIoRanges(ranges)| || |p| == Capacity(maxRegions)
    ensures p == MemIoRanges(ranges)[..|p|]
  {
    var e := MemIoRanges(ranges);
    if |e| <= Capacity(maxRegions) then e else e[..Capacity(maxRegions)]
  }

  /** Region i + 1 holds the i-th planned range: consecutive indices from 1 and
      nothing else. */
  function RegionWrites(p: seq<PciRange>): (w: Regs)
    ensures forall k :: k in w ==> k.ObRegion? && 1 <= k.region <= |p|
    ensures forall i :: 0 <= i < |p| ==> ObRegion(i + 1) in w && w[ObRegion(i + 1)] == OutboundOf(p[i])
  {
    map k | 1 <= k <= |p| :: ObRegion(k) := OutboundOf(p[k - 1])
  }

  lemma {:induction false} MemIoAppend(a: seq<PciRange>, b: seq<PciRange>)
    ensures MemIoRanges(a + b) == MemIoRanges(a) + MemIoRanges(b)
    decreases |b|
  {
    if b == [] {
      assert a + b == a;
    } else {
      var b' := b[..|b| - 1];
      assert (a + b)[..|a + b| - 1] == a + b';
      assert (a + b)[|a + b| - 1] == b[|b| - 1];
      MemIoAppend(a, b');
    }
  }

  /** No region index outside 1 .. maxRegions - 1 is ever programmed. */
  lemma RegionIndicesBounded(ranges: seq<PciRange>, maxRegions: nat, k: Reg)
    requires k in RegionWrites(Plan(ranges, maxRegions))
    ensures k.ObRegion? && 1 <= k.region < maxRegions
  {
  }

  /** The j-th range, when it is MEM or IO, gets the region numbered one more
      than the MEM and IO ranges before it, as long as that index is below
      maxRegions. */
  lemma MemIoRangeRegion(ranges: seq<PciRange>, maxRegions: nat, j: nat)
    requires j < |ranges| && (IsMem(ranges[j]) || IsIo(ranges[j]))
    requires |MemIoRanges(ranges[..j])| + 1 < maxRegions
    ensures var w := RegionWrites(Plan(ranges, maxRegions));
      var k := ObRegion(|MemIoRanges(ranges[..j])| + 1);
      k in w && w[k] == OutboundOf(ranges[j])
  {
    var c := |MemIoRanges(ranges[..j])|;
    assert ranges == ranges[..j] + ([ranges[j]] + ranges[j + 1..]);
    MemIoAppend(ranges[..j], [ranges[j]] + ranges[j + 1..]);
    MemIoAppend([ranges[j]], ranges[j + 1..]);
    assert MemIoRanges([ranges[j]]) == [ranges[j]] by {
      assert [ranges[j]][..0] == [];
    }
    var p := Plan(ranges, maxRegions);
    assert MemIoRanges(ranges)[c] == ranges[j];
    assert c < |p|;
  }

  /** A range that is neither MEM nor IO takes no region index. */
  lemma SkippedRangeTakesNoRegion(a: seq<PciRange>, x: PciRange, b: seq<PciRange>, maxRegions: nat)
    requires !IsMem(x) && !IsIo(x)
    ensures Plan(a + [x] + b, maxRegions) == Plan(a + b, maxRegions)
  {
    assert (a + [x])[..|a|] == a;
    assert MemIoRanges(a + [x]) == MemIoRanges(a);
    MemIoAppend(a + [x], b);
    MemIoAppend(a, b);
    assert MemIoRanges(a + [x] + b) == MemIoRanges(a + b);
  }

  /** One more range processed: it joins the MEM/IO list exactly when it is
      MEM or IO. */
  lemma MemIoStep(ranges: seq<PciRange>, i: nat)
    requires i < |ranges|
    ensures MemIoRanges(ranges[..i + 1]) ==
              MemIoRanges(ranges[..i]) + (if IsMem(ranges[i]) || IsIo(ranges[i]) then [ranges[i]] else [])
  {
    assert ranges[..i + 1][..i] == ranges[..i];
  }

  /** Where the region loop stops, the ranges handled so far are the plan. */
  lemma PlanAfterLoop(ranges: seq<PciRange>, i: nat, maxRegions: nat)
    requires i <= |ranges|
    requires |MemIoRanges(ranges[..i])| <= Capacity(maxRegions)
    requires i == |ranges| || 1 + |MemIoRanges(ranges[..i])| >= maxRegions
    ensures Plan(ranges, maxRegions) == MemIoRanges(ranges[..i])
  {
    assert ranges == ranges[..i] + ranges[i..];
    MemIoAppend(ranges[..i], ranges[i..]);
    if i == |ranges| {
      assert ranges[i..] == [];
    }
  }

  /** Programming the next region extends the register file by that region. */
  lemma RegsStep(base: Regs, done: seq<PciRange>, x: PciRange)
    ensures (base + RegionWrites(done))[ObRegion(|done| + 1) := OutboundOf(x)] == base + RegionWrites(done + [x])
  {
    RegionWritesSnoc(done, x);
    var w := RegionWrites(done);
    var k := ObRegion(|done| + 1);
    assert base + w[k := OutboundOf(x)] == (base + w)[k := OutboundOf(x)];
  }

  lemma RegionWritesSnoc(p: seq<PciRange>, x: PciRange)
    ensures RegionWrites(p + [x]) == RegionWrites(p)[ObRegion(|p| + 1) := OutboundOf(x)]
  {
  }

  // ---------------------------------------------------------------------------
  // The controller

  /** `struct cdns_pcie_rc` with its embedded `struct cdns_pcie`. */
  class CdnsPcieRc {
    var regs: Regs
    /** Polls of cdns_pcie_link_up made so far. */
    var polls: nat
    const linkUpAt: nat -> bool
    const busStart: nat            // bus_range->start
    const maxRegions: nat
    const vendorId: u16
    const deviceId: u16
    const quirkRetrainFlag: bool

    constructor (regs: Regs, linkUpAt: nat -> bool, busStart: nat, maxRegions: nat,
                 vendorId: u16, deviceId: u16, quirkRetrainFlag: bool)
      ensures this.regs == regs && polls == 0 && this.linkUpAt == linkUpAt
      ensures this.busStart == busStart && this.maxRegions == maxRegions
      ensures this.vendorId == vendorId && this.deviceId == deviceId
      ensures this.quirkRetrainFlag == quirkRetrainFlag
    {
      this.regs, polls, this.linkUpAt := regs, 0, linkUpAt;
      this.busStart, this.maxRegions := busStart, maxRegions;
      this.vendorId, this.deviceId, this.quirkRetrainFlag := vendorId, deviceId, quirkRetrainFlag;
    }

    method WriteReg(r: Reg, v: RegVal)
      modifies this`regs
      ensures regs == old(regs)[r := v]
    {
      regs := regs[r := v];
    }

    /** cdns_pci_map_bus */
    method MapBus(busn: nat, devfn: nat, where: CInt) returns (addr: Option<MmioAddr>)
      modifies this`regs
      // the root bus holds only the root port, reached through reg_base
      ensures busn == busStart && devfn != 0 ==> addr == None && regs == old(regs)
      ensures busn == busStart && devfn == 0 ==>
                addr == Some(MmioAddr(RegBase, ConfigOffset(where))) && regs == old(regs)
      // downstream buses need the link up
      ensures busn != busStart && !LinkUpBit(old(regs)) ==> addr == None && regs == old(regs)
      // otherwise region 0 is aimed at the device, Type 0 only on the bus right below the root
      ensures busn != busStart && LinkUpBit(old(regs)) ==>
                && addr == Some(MmioAddr(CfgBase, ConfigOffset(where)))
                && regs == old(regs)[AtLinkdown := Bits(0)]
                                    [ObRegionPciAddr0(0) := PciAddr0(12, devfn, busn)]
                                    [ObRegionDesc0(0) := Desc0(true, 0, if busn == busStart + 1 then ConfType0 else ConfType1)]
      ensures addr.Some? ==> addr.value.offset < 0x1000
    {
      if busn == busStart {
        if devfn != 0 {
          return None;
        }
        return Some(MmioAddr(RegBase, ConfigOffset(where)));
      }
      if ReadL(regs, LmLinkStatus) & 0x1 == 0 {
        return None;
      }
      WriteReg(AtLinkdown, Bits(0));
      var addr0 := PciAddr0(12, devfn, busn);
      WriteReg(ObRegionPciAddr0(0), addr0);
      var cfgType := if busn == busStart + 1 then ConfType0 else ConfType1;
      var desc0 := Desc0(true, 0, cfgType);
      WriteReg(ObRegionDesc0(0), desc0);
      return Some(MmioAddr(CfgBase, ConfigOffset(where)));
    }

    /** cdns_pcie_link_up: one poll of the platform's link state. */
    method LinkUp() returns (up: bool)
      modifies this`polls
      ensures up == linkUpAt(old(polls)) && polls == old(polls) + 1
    {
      up := linkUpAt(polls);
      polls := polls + 1;
    }

    /** cdns_pcie_host_wait_for_link */
    method WaitForLink() returns (ret: int)
      modifies this`polls
      ensures ret == WaitSpec(linkUpAt, old(polls)).ret
      ensures polls == old(polls) + WaitSpec(linkUpAt, old(polls)).polls
    {
      var retries := 0;
      while retries < LINK_WAIT_MAX_RETRIES
        invariant 0 <= retries <= LINK_WAIT_MAX_RETRIES
        invariant polls == old(polls) + retries
        invariant forall p :: old(polls) <= p < old(polls) + retries ==> !linkUpAt(p)
      {
        var up := LinkUp();
        assert up == linkUpAt(old(polls) + retries);
        if up {
          return 0;
        }
        retries := retries + 1;
      }
      return -ETIMEDOUT;
    }

    /** cdns_pcie_retrain */
    method Retrain() returns (ret: int)
      modifies this`regs, this`polls
      ensures !NeedsRetrain(old(regs)) ==> ret == 0 && regs == old(regs) && polls == old(polls)
      ensures NeedsRetrain(old(regs)) ==>
                && regs == WithRetrainBit(old(regs))
                && ret == WaitSpec(linkUpAt, old(polls)).ret
                && polls == old(polls) + WaitSpec(linkUpAt, old(polls)).polls
    {
      ret := 0;
      var lnkCapSls := ReadL(regs, LNKCAP_REG);
      if lnkCapSls & PCI_EXP_LNKCAP_SLS <= PCI_EXP_LNKCAP_SLS_2_5GB {
        return;
      }
      var lnkStat := ReadW(regs, LNKSTA_REG);
      if lnkStat & PCI_EXP_LNKSTA_CLS == PCI_EXP_LNKSTA_CLS_2_5GB {
        var lnkCtl := ReadW(regs, LNKCTL_REG);
        lnkCtl := lnkCtl | PCI_EXP_LNKCTL_RL;
        WriteReg(LNKCTL_REG, Bits(lnkCtl));
        ret := WaitForLink();
      }
    }

    /** cdns_pcie_host_start_link: the retrain runs only after a successful
        first wait and only with the quirk flag set. */
    method StartLink() returns (ret: int)
      modifies this`regs, this`polls
      ensures var w := WaitSpec(linkUpAt, old(polls));
        && (w.ret != 0 || !quirkRetrainFlag ==>
              ret == w.ret && regs == old(regs) && polls == old(polls) + w.polls)
        && (w.ret == 0 && quirkRetrainFlag && !NeedsRetrain(old(regs)) ==>
              ret == 0 && regs == old(regs) && polls == old(polls) + w.polls)
        && (w.ret == 0 && quirkRetrainFlag && NeedsRetrain(old(regs)) ==>
              var w2 := WaitSpec(linkUpAt, old(polls) + w.polls);
              regs == WithRetrainBit(old(regs)) && ret == w2.ret && polls == old(polls) + w.polls + w2.polls)
    {
      ret := WaitForLink();
      if ret == 0 && quirkRetrainFlag {
        ret := Retrain();
      }
    }

    /** cdns_pcie_host_init_root_port */
    method InitRootPort() returns (ret: int)
      modifies this`regs
      ensures ret == 0
      ensures regs.Keys == old(regs).Keys + RootPortWritten(vendorId, deviceId)
      ensures regs[LmRcBarCfg] == RC_BAR_CONFIG
      ensures vendorId != ID_UNSET ==> regs[LmId] == LmIdVal(vendorId, vendorId)
      ensures deviceId != ID_UNSET ==> regs[Rp(PCI_DEVICE_ID)] == Bits(deviceId as bv32)
      ensures regs[Rp(PCI_CLASS_REVISION)] == Bits(0) && regs[Rp(PCI_CLASS_PROG)] == Bits(0)
      ensures regs[Rp(PCI_CLASS_DEVICE)] == Bits(PCI_CLASS_BRIDGE_PCI)
      // every other register, the unset identity registers included, keeps its value
      ensures forall k :: k in old(regs) && k !in RootPortWritten(vendorId, deviceId) ==> regs[k] == old(regs)[k]
    {
      WriteReg(LmRcBarCfg, RC_BAR_CONFIG);
      if vendorId != ID_UNSET {
        WriteReg(LmId, LmIdVal(vendorId, vendorId));
      }
      if deviceId != ID_UNSET {
        WriteReg(Rp(PCI_DEVICE_ID), Bits(deviceId as bv32));
      }
      WriteReg(Rp(PCI_CLASS_REVISION), Bits(0));
      WriteReg(Rp(PCI_CLASS_PROG), Bits(0));
      WriteReg(Rp(PCI_CLASS_DEVICE), Bits(PCI_CLASS_BRIDGE_PCI));
      ret := 0;
    }

    /** The outbound-region loop of cdns_pcie_host_init_address_translation. */
    method InitOutboundRegions(ranges: seq<PciRange>)
      modifies this`regs
      ensures regs == old(regs) + RegionWrites(Plan(ranges, maxRegions))
    {
      var r := 1;
      var i := 0;
      while i < |ranges|
        invariant 0 <= i <= |ranges|
        invariant r == 1 + |MemIoRanges(ranges[..i])|
        invariant r - 1 <= Capacity(maxRegions)
        invariant regs == old(regs) + RegionWrites(MemIoRanges(ranges[..i]))
      {
        if r >= maxRegions {
          break;
        }
        var range := ranges[i];
        ghost var done := MemIoRanges(ranges[..i]);
        MemIoStep(ranges, i);
        var isIo: bool;
        if IsMem(range) {
          isIo := false;
        } else if IsIo(range) {
          isIo := true;
        } else {
          assert MemIoRanges(ranges[..i + 1]) == done;
          i := i + 1;
          continue;
        }
        assert MemIoRanges(ranges[..i + 1]) == done + [range];
        ghost var before := regs;
        var v := Outbound(0, isIo, range.cpuAddr, range.pciAddr, range.size);
        assert v == OutboundOf(range);
        RegsStep(old(regs), done, range);
        WriteReg(ObRegion(r), v);
        assert regs == before[ObRegion(|done| + 1) := OutboundOf(range)];
        r := r + 1;
        i := i + 1;
      }
      PlanAfterLoop(ranges, i, maxRegions);
    }
  }
}
