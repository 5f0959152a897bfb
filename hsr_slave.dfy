/** HSR/PRP slave handling (net/hsr/hsr_slave.c): the receive hook that every
    slave device of an HSR or PRP group runs on each incoming frame, the
    eligibility check for a device about to become a slave, and the way a
    port joins and leaves its group's port list.

    The port list is a plain sequence: the RCU publication and grace periods
    of the source are not modelled. Collaborators whose code is not part of
    this model (the forwarding engine, the self-address table, the host
    stack's promiscuity and rx-handler registration, the allocator) appear
    either as inputs (the results they return) or as logs of the calls made
    to them. */
module HsrSlave {
  import opened Kernel

  // include/uapi/linux/if_arp.h, if_ether.h, if.h, if_packet.h
  const ARPHRD_ETHER: nat := 1
  const ETH_ALEN: nat := 6
  const ETH_P_PRP: nat := 0x88FB
  const ETH_P_HSR: nat := 0x892F
  const IFF_LOOPBACK: bv32 := 0x8
  const PACKET_LOOPBACK: nat := 5

  // enum hsr_version (hsr_main.h)
  const HSR_V0: nat := 0
  const HSR_V1: nat := 1
  const PRP_V1: nat := 2

  type MacAddr = seq<bv8>

  /** enum hsr_port_type */
  datatype PortType = PortNone | SlaveA | SlaveB | Interlink | Master

  /** The two rx_handler_result_t values the hook returns. */
  datatype RxHandlerResult = Consumed | Pass

  /** The per-port-type statistics the hook bumps (INC_CNT_OWN_RX_AB,
      INC_CNT_RX_AB, INC_CNT_RX_ERROR_AB). */
  datatype Counter = OwnRx | Rx | RxError

  /** What a device's rx_handler slot holds. */
  datatype RxHandler = NoHandler | HsrHandleFrame | OtherHandler

  /** The fields of an skb the hook looks at. `proto` is the ethertype in host
      order; `macAtDataAfterPush` says whether the MAC header sits at
      `skb->data` once `ETH_HLEN` bytes have been pushed back. */
  datatype Frame = Frame(
    pktType: nat,
    macHeaderSet: bool,
    source: MacAddr,
    proto: nat,
    macAtDataAfterPush: bool)

  /** The parts of `struct hsr_priv` the hook consults. */
  datatype GroupConfig = GroupConfig(protVersion: nat, rxOffloaded: bool, selfAddrs: set<MacAddr>)

  /** The outcome of one run of the hook: its return value, the counter of the
      arrival port's type it bumps (if any) and whether it hands the frame to
      the forwarding engine. */
  datatype Decision = Decision(result: RxHandlerResult, count: Option<Counter>, forward: bool)

  predicate IsTagged(proto: nat) {
    proto == ETH_P_PRP || proto == ETH_P_HSR
  }

  /** A frame that passed the self-address check goes on towards forwarding:
      it is tagged, or the group runs PRP, or reception is offloaded. */
  predicate ProtocolAccepted(g: GroupConfig, proto: nat) {
    IsTagged(proto) || g.protVersion > HSR_V1 || g.rxOffloaded
  }

  /** The hook returns PASS before it has found a port: a loopback echo, an
      skb without a MAC header, or a device that is not an HSR port (`g` is
      None exactly when the device has no port). */
  predicate Bypassed(f: Frame, g: Option<GroupConfig>) {
    f.pktType == PACKET_LOOPBACK || !f.macHeaderSet || g.None?
  }

  /** The decision of hsr_handle_frame for frame `f` arriving on a device whose
      port belongs to a group configured as `g` (None: no port). */
  function Classify(f: Frame, g: Option<GroupConfig>): (d: Decision)
    // nothing is counted or forwarded for a frame bypassed before the lookup
    ensures Bypassed(f, g) ==> d == Decision(Pass, None, false)
    ensures !Bypassed(f, g) ==> d.count.Some?
    ensures d.count == Some(OwnRx) <==> !Bypassed(f, g) && f.source in g.value.selfAddrs
    ensures d.count == Some(RxError) <==>
              !Bypassed(f, g) && f.source !in g.value.selfAddrs
              && (!ProtocolAccepted(g.value, f.proto) || !f.macAtDataAfterPush)
    // forwarded exactly when every check passed, and then counted as rx
    ensures d.forward <==>
              !Bypassed(f, g) && f.source !in g.value.selfAddrs
              && ProtocolAccepted(g.value, f.proto) && f.macAtDataAfterPush
    ensures d.count == Some(Rx) <==> d.forward
    ensures d.result == Pass <==>
              Bypassed(f, g) || (f.source !in g.value.selfAddrs && !ProtocolAccepted(g.value, f.proto))
  {
    if f.pktType == PACKET_LOOPBACK then Decision(Pass, None, false)
    else if !f.macHeaderSet then Decision(Pass, None, false)
    else if g.None? then Decision(Pass, None, false)
    else if f.source in g.value.selfAddrs then Decision(Consumed, Some(OwnRx), false)
    else if !IsTagged(f.proto) && g.value.protVersion <= HSR_V1 && !g.value.rxOffloaded then
      Decision(Pass, Some(RxError), false)
    else if !f.macAtDataAfterPush then Decision(Consumed, Some(RxError), false)
    else Decision(Consumed, Some(Rx), true)
  }

  /** An untagged, well-formed frame from a foreign node goes on to forwarding
      exactly when the group runs PRP or is offloaded; under HSR v0/v1 without
      offload it is passed up the stack and counted as an rx error. */
  lemma UntaggedFrameGate(f: Frame, g: GroupConfig)
    requires f.pktType != PACKET_LOOPBACK && f.macHeaderSet && f.macAtDataAfterPush
    requires f.source !in g.selfAddrs && !IsTagged(f.proto)
    ensures Classify(f, Some(g)).forward <==> g.protVersion > HSR_V1 || g.rxOffloaded
    ensures !(g.protVersion > HSR_V1 || g.rxOffloaded) ==>
              Classify(f, Some(g)) == Decision(Pass, Some(RxError), false)
  {
  }

  // ---------------------------------------------------------------------------
  // Devices, ports and groups

  /** The parts of `struct net_device` this core reads or changes. */
  class NetDevice {
    const flags: bv32
    const devType: nat
    const addrLen: nat
    const isHsrMaster: bool   // is_hsr_master(dev)
    const isVlan: bool        // is_vlan_dev(dev)
    const dontBridge: bool    // IFF_DONT_BRIDGE in priv_flags
    var refcnt: int           // dev_hold / dev_put
    var promiscuity: int      // dev_set_promiscuity(dev, +1 / -1)
    var rxHandler: RxHandler
    var rxHandlerData: HsrPort?
    var lroDisabled: bool     // dev_disable_lro has run

    constructor (flags: bv32, devType: nat, addrLen: nat, isHsrMaster: bool, isVlan: bool, dontBridge: bool)
      ensures this.flags == flags && this.devType == devType && this.addrLen == addrLen
      ensures this.isHsrMaster == isHsrMaster && this.isVlan == isVlan && this.dontBridge == dontBridge
      ensures refcnt == 0 && promiscuity == 0 && rxHandler == NoHandler && rxHandlerData == null
      ensures !lroDisabled
    {
      this.flags, this.devType, this.addrLen := flags, devType, addrLen;
      this.isHsrMaster, this.isVlan, this.dontBridge := isHsrMaster, isVlan, dontBridge;
      refcnt, promiscuity := 0, 0;
      rxHandler, rxHandlerData := NoHandler, null;
      lroDisabled := false;
    }
  }

  /** `struct hsr_port`: its fields are set once, before it is published. */
  class HsrPort {
    const hsr: HsrPriv
    const dev: NetDevice
    const portType: PortType

    constructor (hsr: HsrPriv, dev: NetDevice, portType: PortType)
      ensures this.hsr == hsr && this.dev == dev && this.portType == portType
    {
      this.hsr, this.dev, this.portType := hsr, dev, portType;
    }
  }

  /** hsr_port_exists: the device's rx handler is the HSR hook. */
  predicate PortExists(dev: NetDevice)
    reads dev
  {
    dev.rxHandler == HsrHandleFrame
  }

  /** hsr_port_get_rcu (hsr_slave.h): the port registered as handler data, if
      the device runs the HSR hook. */
  function PortGet(dev: NetDevice): HsrPort?
    reads dev
  {
    if PortExists(dev) then dev.rxHandlerData else null
  }

  /** The group whose state a frame received on `dev` may change. */
  function HsrOf(dev: NetDevice): set<HsrPriv>
    reads dev
  {
    var port := PortGet(dev);
    if port == null then {} else {port.hsr}
  }

  /** A loopback-free Ethernet device with a full-length address. */
  predicate EthernetLike(dev: NetDevice)
    reads dev
  {
    dev.flags & IFF_LOOPBACK == 0 && dev.devType == ARPHRD_ETHER && dev.addrLen == ETH_ALEN
  }

  /** hsr_check_dev_ok: the checks run in source order, so the first that
      fails decides the error. */
  function CheckDevOk(dev: NetDevice): (res: int)
    reads dev
    ensures res == 0 <==>
              EthernetLike(dev) && !dev.isHsrMaster && !PortExists(dev) && !dev.isVlan && !dev.dontBridge
    ensures res == -EOPNOTSUPP <==>
              EthernetLike(dev) && !dev.isHsrMaster && !PortExists(dev) && !dev.isVlan && dev.dontBridge
    ensures res != 0 && res != -EOPNOTSUPP ==> res == -EINVAL
  {
    if !EthernetLike(dev) then -EINVAL
    else if dev.isHsrMaster then -EINVAL
    else if PortExists(dev) then -EINVAL
    else if dev.isVlan then -EINVAL
    else if dev.dontBridge then -EOPNOTSUPP
    else 0
  }

  /** A device that already runs the HSR hook cannot be enslaved again. */
  lemma ExistingSlaveRejected(dev: NetDevice)
    requires PortExists(dev)
    ensures CheckDevOk(dev) == -EINVAL
  {
  }

  /** Index of the first port of type `t`: the list walk of hsr_port_get_hsr
      (hsr_main.c). */
  function FirstOfType(ports: seq<HsrPort>, t: PortType): (k: Option<nat>)
    ensures k.Some? ==> k.value < |ports| && ports[k.value].portType == t
    ensures k.Some? ==> forall j :: 0 <= j < k.value ==> ports[j].portType != t
    ensures k.None? <==> forall j :: 0 <= j < |ports| ==> ports[j].portType != t
  {
    if ports == [] then None
    else if ports[0].portType == t then Some(0)
    else match FirstOfType(ports[1..], t)
      case None => None
      case Some(k) => Some(k + 1)
  }

  /** Position of port `p` in the list: the node list_del_rcu unlinks. */
  function IndexOf(ports: seq<HsrPort>, p: HsrPort): (i: nat)
    requires p in ports
    ensures i < |ports| && ports[i] == p && p !in ports[..i]
  {
    if ports[0] == p then 0 else 1 + IndexOf(ports[1..], p)
  }

  /** Value of counter `key` in a statistics map (absent: zero). */
  function CountIn(stats: map<(PortType, Counter), nat>, key: (PortType, Counter)): nat {
    if key in stats then stats[key] else 0
  }

  /** Statistics after one increment of `key`: that counter grows by one and
      no other changes. */
  function Bump(stats: map<(PortType, Counter), nat>, key: (PortType, Counter)): (r: map<(PortType, Counter), nat>)
    ensures forall k :: CountIn(r, k) == CountIn(stats, k) + (if k == key then 1 else 0)
    ensures r.Keys == stats.Keys + {key}
  {
    stats[key := CountIn(stats, key) + 1]
  }

  /** The result hsr_portdev_setup returns, given what dev_set_promiscuity and
      netdev_rx_handler_register return. */
  function SetupResult(rxOffloaded: bool, promiscRes: int, registerRes: int): (r: int)
    // success needs both steps to succeed, promiscuity only when not offloaded
    ensures r == 0 <==> (rxOffloaded || promiscRes == 0) && registerRes == 0
    // a failure reports the first step that failed: registration is not tried after promiscuity fails
    ensures !rxOffloaded && promiscRes != 0 ==> r == promiscRes
    ensures (rxOffloaded || promiscRes == 0) ==> r == registerRes
  {
    if !rxOffloaded && promiscRes != 0 then promiscRes else registerRes
  }

  /** `struct hsr_priv`: the group, its port list and its statistics. */
  class HsrPriv {
    const protVersion: nat
    const rxOffloaded: bool
    const selfAddrs: set<MacAddr>
    var ports: seq<HsrPort>
    var stats: map<(PortType, Counter), nat>
    /** hsr_forward_skb calls: the frame and the port it arrived on. */
    var forwarded: seq<(Frame, HsrPort)>
    /** netdev_update_features + dev_set_mtu: the master device each
        recomputation updated and the port list it saw. */
    var masterSyncs: seq<(NetDevice, seq<HsrPort>)>

    constructor (protVersion: nat, rxOffloaded: bool, selfAddrs: set<MacAddr>)
      ensures this.protVersion == protVersion && this.rxOffloaded == rxOffloaded
      ensures this.selfAddrs == selfAddrs
      ensures ports == [] && stats == map[] && forwarded == [] && masterSyncs == []
      ensures Valid()
    {
      this.protVersion, this.rxOffloaded, this.selfAddrs := protVersion, rxOffloaded, selfAddrs;
      ports, stats, forwarded, masterSyncs := [], map[], [], [];
    }

    function Config(): GroupConfig {
      GroupConfig(protVersion, rxOffloaded, selfAddrs)
    }

    function Devs(): set<NetDevice>
      reads this
    {
      set p | p in ports :: p.dev
    }

    /** At most one port per type, every port points back to this group, the
        master port sits on an HSR master device and no other port does, and
        every non-master port's device runs the HSR hook with that port as its
        handler data. */
    ghost predicate Valid()
      reads this, Devs()
    {
      && (forall i, j :: 0 <= i < j < |ports| ==> ports[i].portType != ports[j].portType)
      && (forall p :: p in ports ==> p.hsr == this)
      && (forall p :: p in ports ==> (p.dev.isHsrMaster <==> p.portType == Master))
      && (forall p :: p in ports && p.portType != Master ==>
            p.dev.rxHandler == HsrHandleFrame && p.dev.rxHandlerData == p)
    }

    /** hsr_port_get_hsr: the group's port of type `t`, NULL when it has none. */
    function PortByType(t: PortType): (p: HsrPort?)
      reads this
      ensures p != null ==> p in ports && p.portType == t
      ensures p == null <==> forall q :: q in ports ==> q.portType != t
    {
      match FirstOfType(ports, t)
      case None => null
      case Some(k) => ports[k]
    }

    method Inc(t: PortType, c: Counter)
      modifies this`stats
      ensures stats == Bump(old(stats), (t, c))
    {
      stats := Bump(stats, (t, c));
    }

    method Forward(f: Frame, port: HsrPort)
      modifies this`forwarded
      ensures forwarded == old(forwarded) + [(f, port)]
    {
      forwarded := forwarded + [(f, port)];
    }

    method SyncMaster(master: HsrPort)
      modifies this`masterSyncs
      ensures masterSyncs == old(masterSyncs) + [(master.dev, ports)]
    {
      masterSyncs := masterSyncs + [(master.dev, ports)];
    }

    /** The tail of hsr_add_port: link the set-up port at the tail of the list
        and recompute the master's features and MTU. */
    method Publish(port: HsrPort)
      requires Valid() && port.hsr == this
      requires forall q :: q in ports ==> q.portType != port.portType && q.dev != port.dev
      requires port.dev.isHsrMaster <==> port.portType == Master
      requires port.portType != Master ==>
                 port.dev.rxHandler == HsrHandleFrame && port.dev.rxHandlerData == port
      requires port.portType == Master || PortByType(Master) != null
      modifies this`ports, this`masterSyncs
      ensures Valid()
      ensures ports == old(ports) + [port]
      ensures PortByType(Master) != null
      ensures masterSyncs == old(masterSyncs) + [(PortByType(Master).dev, ports)]
    {
      ghost var before := ports;
      ports := ports + [port];
      assert ports[..|before|] == before;
      if port.portType == Master {
        assert ports[|before|].portType == Master;
      } else {
        var k := FirstOfType(before, Master).value;
        assert ports[k].portType == Master;
      }
      var master := PortByType(Master);
      SyncMaster(master);
    }

    /** hsr_add_port. `allocFails` is the kzalloc failure; `promiscRes` and
        `registerRes` are what dev_set_promiscuity and
        netdev_rx_handler_register return. The master lookup after the
        insertion dereferences the master, so a slave may only be added once
        the master is in place. The master port is the group's own HSR
        device, which is_hsr_master recognises. */
    method AddPort(dev: NetDevice, t: PortType, allocFails: bool, promiscRes: int, registerRes: int)
      returns (res: int)
      requires Valid()
      requires t == Master || PortByType(Master) != null
      requires t == Master ==> dev.isHsrMaster
      modifies this, dev
      ensures Valid()
      // the error that decides the result, in source order
      ensures t != Master && old(CheckDevOk(dev)) != 0 ==> res == old(CheckDevOk(dev))
      ensures (t == Master || old(CheckDevOk(dev)) == 0) && old(PortByType(t)) != null ==> res == -EBUSY
      ensures (t == Master || old(CheckDevOk(dev)) == 0) && old(PortByType(t)) == null && allocFails ==>
                res == -ENOMEM
      ensures (t == Master || old(CheckDevOk(dev)) == 0) && old(PortByType(t)) == null && !allocFails ==>
                res == (if t == Master then 0 else SetupResult(rxOffloaded, promiscRes, registerRes))
      // a failed add changes neither the group nor the device
      ensures res != 0 ==> ports == old(ports) && masterSyncs == old(masterSyncs) && unchanged(dev)
      // a successful add appends one fresh port at the tail and recomputes the master once
      ensures res == 0 ==>
                |ports| == |old(ports)| + 1 && ports[..|old(ports)|] == old(ports)
                && fresh(ports[|old(ports)|]) && ports[|old(ports)|].dev == dev
                && ports[|old(ports)|].portType == t && ports[|old(ports)|].hsr == this
      ensures res == 0 ==> PortByType(Master) != null
      ensures res == 0 ==> masterSyncs == old(masterSyncs) + [(PortByType(Master).dev, ports)]
      // a master skips device setup; a slave device is hooked, held and made promiscuous
      ensures res == 0 && t == Master ==> unchanged(dev)
      ensures res == 0 && t != Master ==>
                dev.refcnt == old(dev.refcnt) + 1
                && dev.promiscuity == old(dev.promiscuity) + (if rxOffloaded then 0 else 1)
                && dev.rxHandler == HsrHandleFrame && dev.rxHandlerData == ports[|old(ports)|]
                && dev.lroDisabled && CheckDevOk(dev) == -EINVAL
      ensures stats == old(stats) && forwarded == old(forwarded)
    {
      if t != Master {
        res := CheckDevOk(dev);
        if res != 0 {
          return;
        }
        // an eligible device carries no port of this group yet
        assert forall q :: q in ports ==> q.dev != dev;
      }
      if PortByType(t) != null {
        return -EBUSY;
      }
      if allocFails {
        return -ENOMEM;
      }
      var port := new HsrPort(this, dev, t);
      if t != Master {
        res := PortdevSetup(dev, port, promiscRes, registerRes);
        if res != 0 {
          return;
        }
      }
      assert Valid();
      Publish(port);
      res := 0;
    }
  }

  /** hsr_handle_frame, run on frame `f` received by device `dev`. */
  method HandleFrame(dev: NetDevice, f: Frame) returns (res: RxHandlerResult)
    modifies HsrOf(dev)
    ensures
      var port := PortGet(dev);
      var d := Classify(f, if port == null then None else Some(port.hsr.Config()));
      && res == d.result
      && (port != null ==>
            && port.hsr.stats ==
                 (if d.count.Some? then Bump(old(port.hsr.stats), (port.portType, d.count.value))
                  else old(port.hsr.stats))
            && port.hsr.forwarded == old(port.hsr.forwarded) + (if d.forward then [(f, port)] else [])
            && port.hsr.ports == old(port.hsr.ports)
            && port.hsr.masterSyncs == old(port.hsr.masterSyncs))
  {
    if f.pktType == PACKET_LOOPBACK {
      return Pass;
    }
    if !f.macHeaderSet {
      return Pass;
    }
    var port := PortGet(dev);
    if port == null {
      // finish_pass with hsr still NULL
      return Pass;
    }
    var hsr := port.hsr;
    if f.source in hsr.selfAddrs {
      hsr.Inc(port.portType, OwnRx);
      return Consumed;
    }
    if !IsTagged(f.proto) && hsr.protVersion <= HSR_V1 && !hsr.rxOffloaded {
      // finish_pass with hsr set
      hsr.Inc(port.portType, RxError);
      return Pass;
    }
    if !f.macAtDataAfterPush {
      hsr.Inc(port.portType, RxError);
      return Consumed;
    }
    hsr.Inc(port.portType, Rx);
    hsr.Forward(f, port);
    return Consumed;
  }

  /** hsr_portdev_setup: hold the device, make it promiscuous unless the group
      is offloaded, register the hook; on a failure undo what was done, in
      reverse order. */
  method PortdevSetup(dev: NetDevice, port: HsrPort, promiscRes: int, registerRes: int)
    returns (res: int)
    modifies dev
    ensures res == SetupResult(port.hsr.rxOffloaded, promiscRes, registerRes)
    ensures res != 0 ==> unchanged(dev)
    ensures res == 0 ==>
              dev.refcnt == old(dev.refcnt) + 1
              && dev.promiscuity == old(dev.promiscuity) + (if port.hsr.rxOffloaded then 0 else 1)
              && dev.rxHandler == HsrHandleFrame && dev.rxHandlerData == port && dev.lroDisabled
  {
    dev.refcnt := dev.refcnt + 1;
    label failPromiscuity: {
      label failRxHandler: {
        if !port.hsr.rxOffloaded {
          if promiscRes != 0 {
            res := promiscRes;
            break failPromiscuity;
          }
          dev.promiscuity := dev.promiscuity + 1;
        }
        if registerRes != 0 {
          res := registerRes;
          break failRxHandler;
        }
        dev.rxHandler, dev.rxHandlerData := HsrHandleFrame, port;
        dev.lroDisabled := true;
        return 0;
      }
      if !port.hsr.rxOffloaded {
        dev.promiscuity := dev.promiscuity - 1;
      }
    }
    dev.refcnt := dev.refcnt - 1;
  }

  /** hsr_del_port: unlink the port; a non-master port also has the master
      recomputed (when there is one), its hook unregistered, its promiscuity
      dropped unless offloaded and its device released. */
  method DelPort(port: HsrPort)
    requires port.hsr.Valid() && port in port.hsr.ports
    modifies port.hsr, port.dev
    ensures port.hsr.Valid()
    ensures
      var i := IndexOf(old(port.hsr.ports), port);
      port.hsr.ports == old(port.hsr.ports)[..i] + old(port.hsr.ports)[i + 1..]
    ensures port !in port.hsr.ports
    ensures port.portType == Master ==> unchanged(port.dev) && port.hsr.masterSyncs == old(port.hsr.masterSyncs)
    ensures port.portType != Master ==>
              port.hsr.masterSyncs ==
                old(port.hsr.masterSyncs) +
                  (if old(port.hsr.PortByType(Master)) != null then [(old(port.hsr.PortByType(Master)).dev, port.hsr.ports)]
                   else [])
    ensures port.portType != Master ==>
              && port.dev.rxHandler == NoHandler && port.dev.rxHandlerData == null
              && port.dev.promiscuity == old(port.dev.promiscuity) - (if port.hsr.rxOffloaded then 0 else 1)
              && port.dev.refcnt == old(port.dev.refcnt) - 1
              && port.dev.lroDisabled == old(port.dev.lroDisabled)
    ensures port.hsr.stats == old(port.hsr.stats) && port.hsr.forwarded == old(port.hsr.forwarded)
  {
    var hsr := port.hsr;
    var master := hsr.PortByType(Master);
    var i := IndexOf(hsr.ports, port);
    ghost var before := hsr.ports;
    hsr.ports := hsr.ports[..i] + hsr.ports[i + 1..];
    RemoveAtKeepsOthers(before, i);
    if port != master {
      if master != null {
        hsr.SyncMaster(master);
      }
      port.dev.rxHandler, port.dev.rxHandlerData := NoHandler, null;
      if !hsr.rxOffloaded {
        port.dev.promiscuity := port.dev.promiscuity - 1;
      }
      port.dev.refcnt := port.dev.refcnt - 1;
    }
  }

  /** Removing the element at `i` of a list whose port types are distinct
      keeps every other element, in order, and drops that one. */
  lemma RemoveAtKeepsOthers(s: seq<HsrPort>, i: nat)
    requires i < |s|
    requires forall a, b :: 0 <= a < b < |s| ==> s[a].portType != s[b].portType
    ensures var r := s[..i] + s[i + 1..];
      && |r| == |s| - 1
      && (forall k :: 0 <= k < i ==> r[k] == s[k])
      && (forall k :: i <= k < |r| ==> r[k] == s[k + 1])
      && (forall a, b :: 0 <= a < b < |r| ==> r[a].portType != r[b].portType)
      && (forall q :: q in r <==> q in s && q != s[i])
  {
  }

  /** No two ports of a valid group share a device: two slaves are told apart
      by their handler data, and the master's device is an HSR master, which
      hsr_check_dev_ok never lets become a slave. */
  lemma PortDevicesDistinct(hsr: HsrPriv, p: HsrPort, q: HsrPort)
    requires hsr.Valid() && p in hsr.ports && q in hsr.ports && p != q
    ensures p.dev != q.dev
  {
  }

  /** The rx hook's lookup on the device of a slave port of a valid group:
      hsr_port_exists holds and hsr_port_get_rcu returns that port, so a frame
      received there changes that group only. */
  lemma SlavePortFound(hsr: HsrPriv, p: HsrPort)
    requires hsr.Valid() && p in hsr.ports && p.portType != Master
    ensures PortExists(p.dev) && PortGet(p.dev) == p && HsrOf(p.dev) == {hsr}
  {
  }

  /** hsr_check_dev_ok refuses every device that already carries a port of a
      valid group: a slave's because it runs the HSR hook, the master's
      because it is an HSR master. */
  lemma PortDeviceRejected(hsr: HsrPriv, p: HsrPort)
    requires hsr.Valid() && p in hsr.ports
    ensures CheckDevOk(p.dev) == -EINVAL
  {
  }
}
