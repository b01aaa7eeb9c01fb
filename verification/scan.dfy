/** `deviceNetworkScan(ieeeAddr)`: the query phase followed by the
    graph-assembly pass. */
module Scan {
  import opened Seqs
  import opened OrderedMaps
  import opened Retry
  import opened Model
  import opened Query
  import opened Assembly

  /** The neighbor-table map a scan for `ieeeAddr` collects. */
  function ScanLqis(devices: seq<Device>, ieeeAddr: string): OrderedMap<nat, Lqi>
  {
    Collect(devices, Queried(devices, ieeeAddr), LqiOf)
  }

  /** The routing-table map a scan for `ieeeAddr` collects. */
  function ScanRoutingTables(devices: seq<Device>, ieeeAddr: string): OrderedMap<nat, RoutingTable>
  {
    Collect(devices, Queried(devices, ieeeAddr), RoutingTableOf)
  }

  /** `deviceNetworkScan`. `directory` stands for `deviceByNetworkAddress`: it maps
      a network address to the hardware address of the device the directory
      resolves it to. The node list is never filled. */
  method DeviceNetworkScan(devices: seq<Device>, directory: map<int, string>, ieeeAddr: string)
    returns (topology: Topology)
    ensures topology.nodes == []
    ensures topology.links ==
      Links(devices, ScanLqis(devices, ieeeAddr), ScanRoutingTables(devices, ieeeAddr), directory)
  {
    var lqis, routingTables := QueryDevices(devices, ieeeAddr);
    topology := Topology([], []);
    var links, _ := AssembleLinks(devices, lqis, routingTables, directory);
    topology := topology.(links := links);
  }

  /** The links a scanned device contributes: none unless it was queried and
      its neighbor-table query succeeded; otherwise one per current neighbor,
      and all with empty routes when its routing-table query failed. Neither
      outcome depends on what the other devices' queries did. */
  lemma {:induction false} ScannedDevice(devices: seq<Device>, ieeeAddr: string, directory: map<int, string>, i: nat)
    requires i < |devices|
    ensures i !in Keys(ScanLqis(devices, ieeeAddr)) <==>
      !(devices[i].ieeeAddr == ieeeAddr && devices[i].deviceType != EndDevice && DoRequest(devices[i].lqi).result.Ok?)
    ensures i in Keys(ScanLqis(devices, ieeeAddr)) ==>
      var neighbors := DoRequest(devices[i].lqi).result.value.neighbors;
      var routingTable := Get(ScanRoutingTables(devices, ieeeAddr), i);
      var links := DeviceLinks(devices[i], neighbors, routingTable, directory);
      && Get(ScanLqis(devices, ieeeAddr), i) == Some(Lqi(neighbors))
      && |links| == |Filter(neighbors, IsCurrent)|
      && (DoRequest(devices[i].routingTable).result.Fail? ==> forall k :: 0 <= k < |links| ==> links[k].routes == [])
  {
    var queried := Queried(devices, ieeeAddr);
    CollectGet(devices, queried, LqiOf, i);
    CollectGet(devices, queried, RoutingTableOf, i);
    if i in Keys(ScanLqis(devices, ieeeAddr)) {
      var neighbors := DoRequest(devices[i].lqi).result.value.neighbors;
      DeviceLinksSpec(devices[i], neighbors, Get(ScanRoutingTables(devices, ieeeAddr), i), directory);
    }
  }

  /** A scan yields one link per current neighbor of every queried device
      whose neighbor-table query succeeded. */
  lemma ScanLinkCount(devices: seq<Device>, ieeeAddr: string, directory: map<int, string>)
    ensures |Links(devices, ScanLqis(devices, ieeeAddr), ScanRoutingTables(devices, ieeeAddr), directory)|
      == CurrentCount(ScanLqis(devices, ieeeAddr))
  {
    LinksCount(devices, ScanLqis(devices, ieeeAddr), ScanRoutingTables(devices, ieeeAddr), directory);
  }

  /** A router that hears a child (relationship 1) and routes a destination
      through it yields one link from the child, with the child's link quality
      and depth and that one route; an inactive route through the child and a
      neighbor with relationship 5 beside it yield nothing. */
  lemma ChildWithActiveRoute(router: Device, child: Neighbor, stale: Neighbor,
                             route: RoutingEntry, inactive: RoutingEntry, directory: map<int, string>)
    requires router.deviceType != EndDevice
    requires child.relationship == 1 && child.ieeeAddr != NullIeeeAddr && stale.relationship == 5
    requires route.status == Active && route.nextHop == child.networkAddress && inactive.status != Active
    requires router.lqi(0) == Ok(Lqi([child, stale]))
    requires router.routingTable(0) == Ok(RoutingTable([inactive, route]))
    ensures Links([router], ScanLqis([router], router.ieeeAddr), ScanRoutingTables([router], router.ieeeAddr), directory)
      == [Link(Endpoint(child.ieeeAddr, child.networkAddress), Endpoint(router.ieeeAddr, router.networkAddress),
               child.linkquality, child.depth, [route])]
  {
    OnlyDeviceQueried(router);
    var table := RoutingTable([inactive, route]);
    assert ScanLqis([router], router.ieeeAddr) == [(0, Lqi([child, stale]))];
    assert Get(ScanRoutingTables([router], router.ieeeAddr), 0) == Some(table);
    SingleEntryLinks([router], 0, Lqi([child, stale]), ScanRoutingTables([router], router.ieeeAddr), directory);
    CurrentNeighborOnly(router, child, stale, Some(table), directory);
    ActiveRouteOnly(route, inactive, child.networkAddress);
  }

  /** Of a current and a stale neighbor, only the current one yields a link. */
  lemma CurrentNeighborOnly(device: Device, current: Neighbor, stale: Neighbor,
                            routingTable: Option<RoutingTable>, directory: map<int, string>)
    requires current.relationship <= MaxRelationship && current.ieeeAddr != NullIeeeAddr
    requires stale.relationship > MaxRelationship
    ensures DeviceLinks(device, [current, stale], routingTable, directory) ==
      [Link(Endpoint(current.ieeeAddr, current.networkAddress), Endpoint(device.ieeeAddr, device.networkAddress),
            current.linkquality, current.depth, RoutesVia(routingTable, current.networkAddress))]
  {
    assert [current, stale][..1] == [current] && [current][..0] == [];
  }

  /** Of an inactive and an active route through a next hop, only the active
      one is a route of the link to that hop. */
  lemma ActiveRouteOnly(route: RoutingEntry, inactive: RoutingEntry, nextHop: int)
    requires route.status == Active && route.nextHop == nextHop && inactive.status != Active
    ensures RoutesVia(Some(RoutingTable([inactive, route])), nextHop) == [route]
  {
    var via := ActiveVia(nextHop);
    assert via(route) && !via(inactive);
    assert [inactive, route][..1] == [inactive] && [inactive][..0] == [];
    assert Filter([inactive], via) == Filter([], via) == [];
  }

  /** A map with a single entry yields the links of that entry's device. */
  lemma SingleEntryLinks(devices: seq<Device>, i: nat, lqi: Lqi,
                         routingTables: OrderedMap<nat, RoutingTable>, directory: map<int, string>)
    requires i < |devices|
    ensures Links(devices, [(i, lqi)], routingTables, directory) ==
      DeviceLinks(devices[i], lqi.neighbors, Get(routingTables, i), directory)
  {
    assert [(i, lqi)][..0] == [];
  }

  /** With a single device that has the target address and is a router, that
      device is the one queried, and each map holds its reply if its query
      succeeds. */
  lemma OnlyDeviceQueried(router: Device)
    requires router.deviceType != EndDevice
    ensures Queried([router], router.ieeeAddr) == [0]
    ensures ScanLqis([router], router.ieeeAddr) ==
      if DoRequest(router.lqi).result.Ok? then [(0, DoRequest(router.lqi).result.value)] else []
    ensures ScanRoutingTables([router], router.ieeeAddr) ==
      if DoRequest(router.routingTable).result.Ok? then [(0, DoRequest(router.routingTable).result.value)] else []
  {
    SingleScan(router, LqiOf);
    SingleScan(router, RoutingTableOf);
  }

  /** One query kind of the single-router scan. */
  lemma SingleScan<T>(router: Device, request: Device -> Request<T>)
    requires router.deviceType != EndDevice
    ensures Queried([router], router.ieeeAddr) == [0]
    ensures Collect([router], Queried([router], router.ieeeAddr), request) ==
      if DoRequest(request(router)).result.Ok? then [(0, DoRequest(request(router)).result.value)] else []
  {
    assert Positions(1) == [0];
    FilterSingle(0, HasAddress([router], router.ieeeAddr));
    FilterSingle(0, IsRouter([router]));
    assert [0][..0] == [];
  }

  /** Filtering a one-element list. */
  lemma FilterSingle(x: nat, p: nat -> bool)
    ensures Filter([x], p) == if p(x) then [x] else []
  {
    assert [x][..0] == [];
  }

  /** A current neighbor reported with the null hardware address takes the
      address the directory resolves its network address to, and keeps the
      null address when the directory does not know that network address. */
  lemma NullAddressResolved(router: Device, anonymous: Neighbor, directory: map<int, string>)
    requires router.deviceType != EndDevice
    requires anonymous.ieeeAddr == NullIeeeAddr && anonymous.relationship <= MaxRelationship
    requires router.lqi(0) == Ok(Lqi([anonymous]))
    ensures var links := Links([router], ScanLqis([router], router.ieeeAddr),
                               ScanRoutingTables([router], router.ieeeAddr), directory);
      && |links| == 1
      && links[0].source.networkAddress == anonymous.networkAddress
      && (anonymous.networkAddress in directory ==> links[0].source.ieeeAddr == directory[anonymous.networkAddress])
      && (anonymous.networkAddress !in directory ==> links[0].source.ieeeAddr == NullIeeeAddr)
  {
    OnlyDeviceQueried(router);
    assert ScanLqis([router], router.ieeeAddr) == [(0, Lqi([anonymous]))];
    SingleEntryLinks([router], 0, Lqi([anonymous]), ScanRoutingTables([router], router.ieeeAddr), directory);
    assert [anonymous][..0] == [];
  }

  /** A neighbor-table query that throws once and then succeeds is retried
      once, and the second reply is the one used. */
  lemma RetriedNeighborTable()
    ensures
      var child := Neighbor("0x00124b0000000001", 0x1a2b, 200, 1, 1);
      var router := Device("0x00158d0001e5ce42", "Router", 0x0001,
                           k => if k == 0 then Fail("busy") else Ok(Lqi([child])), _ => Fail("timeout"));
      && DoRequest(router.lqi).trace == [Attempt(Fail("busy")), Pause(RetryDelay), Attempt(Ok(Lqi([child])))]
      && ScanLqis([router], router.ieeeAddr) == [(0, Lqi([child]))]
  {
    var child := Neighbor("0x00124b0000000001", 0x1a2b, 200, 1, 1);
    var router := Device("0x00158d0001e5ce42", "Router", 0x0001,
                         k => if k == 0 then Fail("busy") else Ok(Lqi([child])), _ => Fail("timeout"));
    OnlyDeviceQueried(router);
  }
}
