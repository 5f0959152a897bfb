# HSR slave handling and Cadence PCIe host setup, modelled in Dafny

This project models two pieces of the Linux kernel:

- **The HSR/PRP slave layer** (`net/hsr/hsr_slave.c`), in module `HsrSlave` (`hsr_slave.dfy`).
  - `hsr_handle_frame` is the rx hook that every slave device of a High-availability Seamless Redundancy (HSR) or Parallel Redundancy Protocol (PRP) group runs on each received frame. It decides PASS or CONSUMED, bumps one per-port-type counter and may hand the frame to the forwarding engine.
  - `hsr_port_exists` and `hsr_check_dev_ok` decide whether a device may be enslaved.
  - `hsr_portdev_setup` holds the device, makes it promiscuous and registers the rx hook. It rolls back in reverse order on failure.
  - `hsr_add_port` and `hsr_del_port` maintain the group's port list.
- **The Cadence PCIe host controller** (`drivers/pci/controller/cadence/pcie-cadence-host.c`), in module `CadenceHost` (`pcie_cadence_host.dfy`).
  - `cdns_pci_map_bus` routes a configuration access: the root bus goes through `reg_base`, other buses go through region 0 and `cfg_base`, and Type 0 or Type 1 is chosen by bus number.
  - `cdns_pcie_host_wait_for_link`, `cdns_pcie_retrain` and `cdns_pcie_host_start_link` wait for the link and retrain it for the Gen2 defect.
  - `cdns_pcie_host_init_root_port` writes the root port's identity registers.
  - The outbound-region loop of `cdns_pcie_host_init_address_translation` programs the regions.

Module `Kernel` (`kernel.dfy`) holds the `Option` type, which stands for the C code's NULL pointers, and the errno values.

Each layer takes the form of its source:

- The frame decision is a pure function, `Classify`. The method `HandleFrame` does what the C code does step by step and is proved equal to it.
- The group (`struct hsr_priv`) is a class. Its port list is a `seq` that `AddPort` and `DelPort` reassign.
- A device (`struct net_device`) is a class whose reference count, promiscuity and rx-handler slot are updated in place.
- The Cadence controller is a class over a register file, a map from register to value.
  - The register bit-field macros of `pcie-cadence.h` are opaque encoders. The value the code builds for one register by OR-ing several of them (for example NBITS, DEVFN and BUS for the region-0 PCI address) is one constructor of `RegVal` that records the fields they pack.
  - The link state is an input: `linkUpAt(k)` is what the k-th poll of `cdns_pcie_link_up` sees.
- The region loop is proved against the function `Plan`, which gives the MEM and IO ranges in device-tree order, cut to the available regions. The listed properties are proved as lemmas about `Plan` and `RegionWrites`.

Collaborators whose code is not modelled appear in one of two ways:

- As inputs, standing for the value they return: `allocFails`, `promiscRes`, `registerRes` and `linkUpAt`.
- As logs of the calls made to them: `forwarded` records `hsr_forward_skb`. `masterSyncs` records each `netdev_update_features` + `dev_set_mtu` pair: the master device it updated and the port list it saw.

**Untagged frames.** Under HSR v0/v1 without offload, an untagged frame is passed up and counted as an rx error (`net/hsr/hsr_slave.c:52-54`, `76-78`). Under PRP or with offload it goes on towards forwarding (`UntaggedFrameGate`).

## Model

| member | source | states |
|---|---|---|
| HsrSlave.Classify | net/hsr/hsr_slave.c:19-81 | A loopback echo, an skb without a MAC header, or a device with no HSR port gives PASS with no counter and no forwarding. A frame from a self address gives CONSUMED, counts only own-rx and is not forwarded. An untagged frame under HSR v0/v1 without offload gives PASS and counts rx-error. A malformed frame (MAC header not at data after the push) gives CONSUMED and counts rx-error. A frame is forwarded, and then gives CONSUMED, exactly when every check passes. The contract states each counter kind, the forward flag and the PASS result as an if-and-only-if over the frame and the group: own-rx iff a self address, rx iff forwarded, rx-error iff the untagged gate or the malformed check fails, and PASS iff the frame is bypassed or fails the untagged gate. |
| HsrSlave.UntaggedFrameGate | net/hsr/hsr_slave.c:51-54 | An untagged, well-formed foreign frame is forwarded iff the group runs PRP (version > HSR_V1) or is offloaded. Otherwise it is passed up and counted as an rx error (the counting at lines 76-78). |
| HsrSlave.HandleFrame | net/hsr/hsr_slave.c:19-81 | The hook returns Classify's result. Only the arrival port's group changes, and in it only the counter Classify names, bumped once for the port's type. The frame is handed to the forwarding engine exactly once if Classify forwards it, and never otherwise. A device without a port changes nothing. |
| HsrSlave.CheckDevOk | net/hsr/hsr_slave.c:88-123 | Returns 0 iff the device is Ethernet-like (not loopback, ARPHRD_ETHER, ETH_ALEN address), is not an HSR master, is not already a slave, is not a VLAN and is not IFF_DONT_BRIDGE. Returns -EOPNOTSUPP iff IFF_DONT_BRIDGE is the first failing check. Every other failure is -EINVAL. |
| HsrSlave.ExistingSlaveRejected | net/hsr/hsr_slave.c:83-86 | A device whose rx handler is already the HSR hook (hsr_port_exists) is rejected with -EINVAL (the check at lines 103-106). |
| HsrSlave.PortdevSetup | net/hsr/hsr_slave.c:126-160 | All or nothing. Failure returns the promiscuity error (tried only without offload) or else the registration error, and leaves refcount, promiscuity and rx handler as they were. Success takes one reference, raises promiscuity by one unless offloaded, installs the HSR hook with the port as its data, and disables LRO. |
| HsrSlave.HsrPriv.AddPort | net/hsr/hsr_slave.c:162-204 | Errors come in source order: device check (slaves only), then -EBUSY for a type already present, then -ENOMEM, then the setup error. A failed add changes neither the list nor the device. A successful add appends one fresh port of that type at the tail and recomputes the master's device once, with the new list. A master port skips the device check and the device setup. After a successful slave add, CheckDevOk rejects the same device. Valid is kept: at most one port per type, the master alone on an HSR master device, every slave hooked to its port. |
| HsrSlave.DelPort | net/hsr/hsr_slave.c:206-234 | Removes exactly that port from the list and keeps the order of the rest, and Valid is kept. A non-master port has the master's device recomputed with the shortened list when a master exists, its hook unregistered, promiscuity lowered by one iff not offloaded, and its reference dropped. A master port's device is untouched. |
| HsrSlave.RemoveAtKeepsOthers | net/hsr/hsr_slave.c:213 | Unlinking the node at position i keeps every other port in order, keeps the port types distinct, and drops exactly that port. |
| HsrSlave.PortDevicesDistinct | net/hsr/hsr_slave.c:98-106 | No two ports of a valid group share a device. Two slaves are told apart by their handler data (the line 103-106 rejection). The master sits on an HSR master device, which the line 98-101 test keeps from becoming a slave. |
| HsrSlave.PortDeviceRejected | net/hsr/hsr_slave.c:98-106 | hsr_check_dev_ok returns -EINVAL for the device of every port of a valid group: the master's device as an HSR master, a slave's because it already runs the hook. |
| HsrSlave.SlavePortFound | net/hsr/hsr_slave.c:36-39 | On the device of a slave port of a valid group, hsr_port_exists holds and hsr_port_get_rcu returns that very port, so the hook acts on that group only. |
| HsrSlave.HsrPriv.PortByType | net/hsr/hsr_slave.c:174-176 | hsr_port_get_hsr returns a port of the group with the requested type, and NULL iff no port has that type (also the lookups at lines 195 and 212). |
| HsrSlave.HsrPriv.Publish | net/hsr/hsr_slave.c:192-197 | The port goes at the tail of the list and Valid is kept. The master then exists, and one recompute of its device with the new list is recorded. |
| HsrSlave.SetupResult | net/hsr/hsr_slave.c:134-159 | Setup succeeds iff promiscuity succeeds (or is skipped when offloaded) and registration succeeds. On failure it reports the promiscuity error, or else the registration error. |
| HsrSlave.FirstOfType | net/hsr/hsr_slave.c:174-176 | The port lookup by type finds the first port of that type, or reports that none has it. |
| HsrSlave.IndexOf | net/hsr/hsr_slave.c:213 | The position that list_del_rcu unlinks: the first occurrence of the port. |
| HsrSlave.Bump | net/hsr/hsr_slave.c:43 | One counter increment raises that counter by one and no other (also the increments at lines 65, 69 and 78). |
| CadenceHost.ConfigOffset | drivers/pci/controller/cadence/pcie-cadence-host.c:32 | `where & 0xfff` is below 0x1000 and agrees with `where` modulo 0x1000, also for a negative `where` (the same mask at line 59). |
| CadenceHost.CdnsPcieRc.MapBus | drivers/pci/controller/cadence/pcie-cadence-host.c:14-60 | On the root bus: NULL for devfn != 0; otherwise reg_base plus the masked offset, with no register written. On another bus with the link-up bit clear: NULL, nothing written. Otherwise: AT_LINKDOWN is cleared, region 0 is aimed at (bus, devfn), Type 0 iff busn == start + 1 and Type 1 otherwise, and cfg_base plus the masked offset is returned. The offset is always below 0x1000. |
| CadenceHost.FirstLinkUp | drivers/pci/controller/cadence/pcie-cadence-host.c:74-78 | Finds the first of n polls that sees the link up, with all earlier polls down. It is None iff all n polls see the link down. |
| CadenceHost.WaitSpec | drivers/pci/controller/cadence/pcie-cadence-host.c:68-83 | The wait returns 0 right after the first poll that sees the link up, with every earlier poll down. It returns -ETIMEDOUT iff all LINK_WAIT_MAX_RETRIES polls saw the link down. Nothing else is returned. |
| CadenceHost.CdnsPcieRc.LinkUp | drivers/pci/controller/cadence/pcie-cadence-host.c:75 | One cdns_pcie_link_up poll returns the link state of that poll's number and advances the poll count by one. |
| CadenceHost.CdnsPcieRc.WaitForLink | drivers/pci/controller/cadence/pcie-cadence-host.c:68-83 | The retry loop returns what WaitSpec says and makes exactly the polls it counts. |
| CadenceHost.WithRetrainBit | drivers/pci/controller/cadence/pcie-cadence-host.c:103-107 | The read-modify-write of LNKCTL sets Retrain Link, keeps every other bit of the half-word, and leaves every other register as it was. |
| CadenceHost.NeedsRetrain | drivers/pci/controller/cadence/pcie-cadence-host.c:98-102 | Retraining is wanted only when the port supports more than 2.5 GT/s and the link runs at 2.5 GT/s, that is, below what the port supports. |
| CadenceHost.CdnsPcieRc.Retrain | drivers/pci/controller/cadence/pcie-cadence-host.c:85-112 | If the supported speed is at most 2.5 GT/s, or the current speed is not 2.5 GT/s, returns 0 with no write and no poll. Otherwise sets the retrain bit (WithRetrainBit) and returns the result of a fresh wait. |
| CadenceHost.CdnsPcieRc.StartLink | drivers/pci/controller/cadence/pcie-cadence-host.c:114-129 | The first wait's error is returned unchanged. Retrain runs only after a successful wait with the quirk flag set, and its result is returned. |
| CadenceHost.RootPortWritten | drivers/pci/controller/cadence/pcie-cadence-host.c:155-162 | The vendor-ID register is among the written registers iff vendor_id != 0xffff, and so is the device-ID register iff device_id != 0xffff. |
| CadenceHost.CdnsPcieRc.InitRootPort | drivers/pci/controller/cadence/pcie-cadence-host.c:131-169 | Returns 0. Writes the BAR configuration (both BARs disabled, 64-bit prefetchable and 32-bit I/O windows enabled), the vendor and subsystem ID and the device ID only when they are not 0xffff, revision and prog-if 0, and class PCI-to-PCI bridge. Every other register is left as it was. |
| CadenceHost.CdnsPcieRc.InitOutboundRegions | drivers/pci/controller/cadence/pcie-cadence-host.c:207-226 | The loop adds exactly RegionWrites(Plan(ranges, max_regions)) to the register file. |
| CadenceHost.MemIoRanges | drivers/pci/controller/cadence/pcie-cadence-host.c:214-219 | The type filter keeps only MEM and IO ranges, each one taken from the range list, and is never longer than that list. |
| CadenceHost.Plan | drivers/pci/controller/cadence/pcie-cadence-host.c:207-226 | The ranges that get a region are a prefix of the MEM and IO ranges in order. There are either all of them or as many as regions 1 .. max_regions - 1 allow. |
| CadenceHost.RegionWrites | drivers/pci/controller/cadence/pcie-cadence-host.c:221-225 | Region i + 1 is programmed with the i-th planned range, and no other region is programmed. |
| CadenceHost.MemIoAppend | drivers/pci/controller/cadence/pcie-cadence-host.c:208-219 | Selecting MEM and IO ranges distributes over concatenation of the device-tree range list. |
| CadenceHost.RegionIndicesBounded | drivers/pci/controller/cadence/pcie-cadence-host.c:211-212 | No region index below 1 or at or above max_regions is ever programmed. |
| CadenceHost.MemIoRangeRegion | drivers/pci/controller/cadence/pcie-cadence-host.c:214-225 | A MEM or IO range gets region 1 + (number of MEM and IO ranges before it), when that index is below max_regions. Indices are therefore consecutive from 1. |
| CadenceHost.SkippedRangeTakesNoRegion | drivers/pci/controller/cadence/pcie-cadence-host.c:218-219 | Inserting a range that is neither MEM nor IO anywhere in the list changes no region assignment. |

## Left out

- RCU: `rcu_read_lock`, `synchronize_rcu` and the publication semantics of `list_add_tail_rcu`/`list_del_rcu` are concurrency. The port list is a plain sequence.
- Memory: `kzalloc` appears only as the `allocFails` input and a fresh `HsrPort`. `kfree` and `kfree_skb` are not modelled: a freed frame is one the hook returns CONSUMED for.
- The forwarding engine (`hsr_forward_skb`), the master's feature and MTU recomputation (`netdev_update_features`, `dev_set_mtu`, `hsr_get_max_mtu`) and `dev_disable_lro` are collaborators. Their code is not part of this model, so only their invocation is recorded (`forwarded`, `masterSyncs`, `lroDisabled`).
- `hsr_addr_is_self` is a set of self addresses. `is_hsr_master` and `is_vlan_dev` are fixed flags of the device.
- `dev_set_promiscuity` and `netdev_rx_handler_register` appear only as their results (`promiscRes`, `registerRes`). The decrement in the rollback and in `hsr_del_port` cannot fail in the model.
- The counters behind `INC_CNT_OWN_RX_AB`, `INC_CNT_RX_AB` and `INC_CNT_RX_ERROR_AB` are modelled as one map keyed by port type and counter kind. The macros' own definitions (which of them count anything for non-slave ports) are not part of this model.
- `WARN_ONCE` and `netdev_info` / `dev_info` messages are output only.
- HsrSlave.HsrPriv.AddPort: requires a master port to exist already when a slave is added. The source dereferences the master lookup's result without a NULL check, so adding a slave to a group without a master would crash.
- HsrSlave.HsrPriv.AddPort: also requires that a master port is added on an HSR master device. The master is the group's own HSR device, which its creator passes in; that caller is not part of this model.
- HsrSlave.DelPort: requires the port to be in its group's list, as the list unlink assumes.
- CadenceHost: register widths (the readw/writew/writeb accessors) are not modelled as overlapping bytes. Each accessed offset is its own register slot, and an absent register reads as zero.
- CadenceHost: the order of register writes inside one operation is not recorded; only the resulting register file is.
- CadenceHost: the numeric values of `CDNS_PCIE_RP_CAP_OFFSET` (0xc0) and `LINK_WAIT_MAX_RETRIES` (10) come from the Linux `pcie-cadence.h`, which is not part of this model.
- The rest of `cdns_pcie_host_init_address_translation` is not modelled: the configuration-space region 0 set-up, the device-tree parser initialisation and the inbound translation after the loop. Also not modelled: `cdns_pcie_host_setup`, `cdns_pcie_host_init`, resource and device-tree plumbing, and `pci_host_probe`.
- `usleep_range` timing between polls is left out. Only the number of polls matters.
- `cdns_pcie_set_outbound_region` (pcie-cadence.c) is not part of this model; what it programs for a region is the opaque value `Outbound(fn, isIo, cpuAddr, pciAddr, size)`.
