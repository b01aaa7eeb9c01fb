/** The graph-assembly pass of `deviceNetworkScan`: every current neighbor
    heard by a scanned device becomes one link from that neighbor to the
    device, with the neighbor's hardware address corrected from the
    directory when the firmware reported the null address, and with the
    device's active routes through that neighbor. */
module Assembly {
  import opened Seqs
  import opened OrderedMaps
  import opened Model

  /** Whether a neighbor's relationship is still current (parent, child,
      sibling or previous child). */
  predicate IsCurrent(n: Neighbor)
  {
    n.relationship <= MaxRelationship
  }

  /** The neighbor record after the null-address correction that looks the
      neighbor up with `deviceByNetworkAddress`. */
  function Corrected(n: Neighbor, directory: map<int, string>): Neighbor
  {
    if n.ieeeAddr == NullIeeeAddr && n.networkAddress in directory
    then n.(ieeeAddr := directory[n.networkAddress])
    else n
  }

  /** Correcting an already corrected record changes nothing. */
  lemma CorrectedIdempotent(n: Neighbor, directory: map<int, string>)
    ensures Corrected(Corrected(n, directory), directory) == Corrected(n, directory)
  {
  }

  /** A neighbor record as the `lqis.forEach` pass leaves it: corrected if
      its relationship is current, untouched otherwise. */
  function FixedAt(n: Neighbor, directory: map<int, string>): Neighbor
  {
    if IsCurrent(n) then Corrected(n, directory) else n
  }

  /** Whether a routing entry is active and goes through the given next hop. */
  function ActiveVia(nextHop: int): RoutingEntry -> bool
  {
    (e: RoutingEntry) => e.status == Active && e.nextHop == nextHop
  }

  /** The routes of a link through a neighbor: the active entries of the
      scanned device's routing table whose next hop is that neighbor, or none
      when no routing table was obtained. */
  function RoutesVia(routingTable: Option<RoutingTable>, nextHop: int): (r: seq<RoutingEntry>)
    ensures routingTable.None? ==> r == []
    ensures routingTable.Some? ==> |r| <= |routingTable.value.table|
  {
    match routingTable
    case None => []
    case Some(rt) => Filter(rt.table, ActiveVia(nextHop))
  }

  /** The routes of a link are exactly the routing table's active entries
      through the link's neighbor, in table order; none without a table. */
  lemma {:induction false} RoutesViaSpec(routingTable: Option<RoutingTable>, nextHop: int)
    ensures routingTable.None? ==> RoutesVia(routingTable, nextHop) == []
    ensures routingTable.Some? ==> forall e ::
      e in RoutesVia(routingTable, nextHop) <==>
      e in routingTable.value.table && e.status == Active && e.nextHop == nextHop
    ensures forall a, b :: routingTable == Some(RoutingTable(a + b)) ==>
      RoutesVia(routingTable, nextHop) ==
        RoutesVia(Some(RoutingTable(a)), nextHop) + RoutesVia(Some(RoutingTable(b)), nextHop)
  {
    if routingTable.Some? {
      FilterMembers(routingTable.value.table, ActiveVia(nextHop));
    }
    forall a, b | routingTable == Some(RoutingTable(a + b))
      ensures RoutesVia(routingTable, nextHop) ==
        RoutesVia(Some(RoutingTable(a)), nextHop) + RoutesVia(Some(RoutingTable(b)), nextHop)
    {
      FilterConcat(a, b, ActiveVia(nextHop));
    }
  }

  /** The link built from a (corrected) neighbor of a scanned device. */
  function LinkFrom(device: Device, n: Neighbor, routingTable: Option<RoutingTable>): Link
  {
    Link(
      Endpoint(n.ieeeAddr, n.networkAddress),
      Endpoint(device.ieeeAddr, device.networkAddress),
      n.linkquality, n.depth,
      RoutesVia(routingTable, n.networkAddress))
  }

  /** The links one scanned device contributes, neighbor by neighbor. */
  function DeviceLinks(device: Device, neighbors: seq<Neighbor>, routingTable: Option<RoutingTable>,
                       directory: map<int, string>): (r: seq<Link>)
    ensures |r| <= |neighbors|
  {
    if neighbors == [] then []
    else
      var n := neighbors[|neighbors| - 1];
      DeviceLinks(device, neighbors[..|neighbors| - 1], routingTable, directory) +
      (if !IsCurrent(n) then [] else [LinkFrom(device, Corrected(n, directory), routingTable)])
  }

  /** One more neighbor adds its link, if it is current. */
  lemma DeviceLinksStep(device: Device, neighbors: seq<Neighbor>, routingTable: Option<RoutingTable>,
                        directory: map<int, string>, j: nat)
    requires j < |neighbors|
    ensures DeviceLinks(device, neighbors[..j + 1], routingTable, directory) ==
      DeviceLinks(device, neighbors[..j], routingTable, directory) +
      (if IsCurrent(neighbors[j]) then [LinkFrom(device, Corrected(neighbors[j], directory), routingTable)] else [])
  {
    assert neighbors[..j + 1][..j] == neighbors[..j];
  }

  /** The neighbor list as the pass leaves it: current neighbors corrected,
      the others untouched. */
  function Fixed(neighbors: seq<Neighbor>, directory: map<int, string>): (r: seq<Neighbor>)
    ensures |r| == |neighbors|
    ensures forall j :: 0 <= j < |r| ==> r[j] == neighbors[j].(ieeeAddr := r[j].ieeeAddr)
    ensures forall j :: 0 <= j < |r| ==>
      r[j].ieeeAddr ==
        (if IsCurrent(neighbors[j]) && neighbors[j].ieeeAddr == NullIeeeAddr && neighbors[j].networkAddress in directory
         then directory[neighbors[j].networkAddress] else neighbors[j].ieeeAddr)
  {
    seq(|neighbors|, j requires 0 <= j < |neighbors| => FixedAt(neighbors[j], directory))
  }

  /** The links of all scanned devices, in the iteration order of `lqis`. */
  function Links(devices: seq<Device>, lqis: OrderedMap<nat, Lqi>, routingTables: OrderedMap<nat, RoutingTable>,
                 directory: map<int, string>): seq<Link>
    requires KeysBelow(lqis, |devices|)
  {
    if lqis == [] then []
    else
      var (i, lqi) := lqis[|lqis| - 1];
      Links(devices, lqis[..|lqis| - 1], routingTables, directory) +
      DeviceLinks(devices[i], lqi.neighbors, Get(routingTables, i), directory)
  }

  /** `lqis` as the pass leaves it, with every neighbor list fixed in place. */
  function FixedAll(lqis: OrderedMap<nat, Lqi>, directory: map<int, string>): (r: OrderedMap<nat, Lqi>)
    ensures |r| == |lqis|
    ensures forall e :: 0 <= e < |r| ==> r[e].0 == lqis[e].0 && r[e].1.neighbors == Fixed(lqis[e].1.neighbors, directory)
  {
    seq(|lqis|, e requires 0 <= e < |lqis| => (lqis[e].0, Lqi(Fixed(lqis[e].1.neighbors, directory))))
  }

  /** Every current neighbor, and no other, yields exactly one link, in
      neighbor-list order; the link goes from the neighbor (its hardware
      address corrected, its network address as reported) to the scanned
      device, copies link quality and depth, and carries the active routes
      through that neighbor. */
  lemma {:induction false} DeviceLinksSpec(device: Device, neighbors: seq<Neighbor>,
                                           routingTable: Option<RoutingTable>, directory: map<int, string>)
    ensures var links := DeviceLinks(device, neighbors, routingTable, directory);
      var current := Filter(neighbors, IsCurrent);
      && |links| == |current|
      && forall k :: 0 <= k < |links| ==>
        && links[k].source.ieeeAddr ==
             (if current[k].ieeeAddr == NullIeeeAddr && current[k].networkAddress in directory
              then directory[current[k].networkAddress] else current[k].ieeeAddr)
        && links[k].source.networkAddress == current[k].networkAddress
        && links[k].target == Endpoint(device.ieeeAddr, device.networkAddress)
        && links[k].linkquality == current[k].linkquality
        && links[k].depth == current[k].depth
        && links[k].routes == RoutesVia(routingTable, current[k].networkAddress)
  {
    if neighbors != [] {
      DeviceLinksSpec(device, neighbors[..|neighbors| - 1], routingTable, directory);
    }
  }

  /** The number of current neighbors over all scanned devices. */
  function CurrentCount(lqis: OrderedMap<nat, Lqi>): nat
  {
    if lqis == [] then 0
    else CurrentCount(lqis[..|lqis| - 1]) + |Filter(lqis[|lqis| - 1].1.neighbors, IsCurrent)|
  }

  /** One link per current neighbor of every device that has a neighbor
      table, and no other link. */
  lemma {:induction false} LinksCount(devices: seq<Device>, lqis: OrderedMap<nat, Lqi>,
                                      routingTables: OrderedMap<nat, RoutingTable>, directory: map<int, string>)
    requires KeysBelow(lqis, |devices|)
    ensures |Links(devices, lqis, routingTables, directory)| == CurrentCount(lqis)
  {
    if lqis != [] {
      var (i, lqi) := lqis[|lqis| - 1];
      LinksCount(devices, lqis[..|lqis| - 1], routingTables, directory);
      DeviceLinksSpec(devices[i], lqi.neighbors, Get(routingTables, i), directory);
    }
  }

  /** Links come device by device in the iteration order of `lqis`: the
      links of a prefix of the map come first, those of the rest after. */
  lemma {:induction false} LinksOrder(devices: seq<Device>, a: OrderedMap<nat, Lqi>, b: OrderedMap<nat, Lqi>,
                                      routingTables: OrderedMap<nat, RoutingTable>, directory: map<int, string>)
    requires KeysBelow(a, |devices|) && KeysBelow(b, |devices|)
    ensures KeysBelow(a + b, |devices|)
    ensures Links(devices, a + b, routingTables, directory) ==
      Links(devices, a, routingTables, directory) + Links(devices, b, routingTables, directory)
  {
    if b == [] {
      assert a + b == a;
    } else {
      assert (a + b)[..|a + b| - 1] == a + b[..|b| - 1];
      LinksOrder(devices, a, b[..|b| - 1], routingTables, directory);
    }
  }

  /** The body of the `lqis.forEach` callback for one scanned device: fix
      each current neighbor record in place and append its link to `links`. Returns the links so far and the neighbor list as left. */
  method LinkNeighbors(links: seq<Link>, device: Device, neighbors: seq<Neighbor>,
                       routingTable: Option<RoutingTable>, directory: map<int, string>)
    returns (links': seq<Link>, fixed: seq<Neighbor>)
    ensures links' == links + DeviceLinks(device, neighbors, routingTable, directory)
    ensures fixed == Fixed(neighbors, directory)
  {
    links' := links;
    fixed := neighbors;
    for j := 0 to |fixed|
      invariant |fixed| == |neighbors|
      invariant forall k :: 0 <= k < |fixed| ==> fixed[k] == if k < j then FixedAt(neighbors[k], directory) else neighbors[k]
      invariant links' == links + DeviceLinks(device, neighbors[..j], routingTable, directory)
    {
      DeviceLinksStep(device, neighbors, routingTable, directory, j);
      var neighbor := fixed[j];
      if neighbor.relationship > MaxRelationship {
        // Relationship is not current.
        continue;
      }

      var link;
      neighbor, link := NeighborLink(device, neighbor, routingTable, directory);
      fixed := fixed[j := neighbor];
      links' := links' + [link];
    }
    assert neighbors[..|neighbors|] == neighbors;
    assert fixed == Fixed(neighbors, directory);
  }

  /** The inside of the neighbor loop, for one current neighbor: correct its
      hardware address from the directory if the firmware reported the null
      address, and build its link. */
  method NeighborLink(device: Device, neighbor: Neighbor, routingTable: Option<RoutingTable>,
                      directory: map<int, string>)
    returns (neighbor': Neighbor, link: Link)
    ensures neighbor' == Corrected(neighbor, directory)
    ensures link == LinkFrom(device, neighbor', routingTable)
  {
    neighbor' := neighbor;
    // deviceByNetworkAddress
    var neighborDevice := if neighbor.networkAddress in directory
                          then Some(directory[neighbor.networkAddress]) else None;
    if neighbor.ieeeAddr == NullIeeeAddr && neighborDevice.Some? {
      neighbor' := neighbor.(ieeeAddr := neighborDevice.value);
    }

    link := Link(
      Endpoint(neighbor'.ieeeAddr, neighbor'.networkAddress),
      Endpoint(device.ieeeAddr, device.networkAddress),
      neighbor'.linkquality, neighbor'.depth, []);
    if routingTable.Some? {
      link := link.(routes := Filter(routingTable.value.table, ActiveVia(neighbor'.networkAddress)));
    }
  }

  /** The `lqis.forEach` over the neighbor tables: build the links of every
      device with a neighbor table, in the iteration order of `lqis`. Returns the
      links and `lqis` as the pass leaves it. */
  method AssembleLinks(devices: seq<Device>, lqis: OrderedMap<nat, Lqi>,
                       routingTables: OrderedMap<nat, RoutingTable>, directory: map<int, string>)
    returns (links: seq<Link>, scanned: OrderedMap<nat, Lqi>)
    requires KeysBelow(lqis, |devices|)
    ensures links == Links(devices, lqis, routingTables, directory)
    ensures scanned == FixedAll(lqis, directory)
  {
    links := [];
    scanned := lqis;
    for e := 0 to |lqis|
      invariant |scanned| == |lqis|
      invariant links == Links(devices, lqis[..e], routingTables, directory)
      invariant forall k :: 0 <= k < e ==> scanned[k] == (lqis[k].0, Lqi(Fixed(lqis[k].1.neighbors, directory)))
      invariant forall k :: e <= k < |lqis| ==> scanned[k] == lqis[k]
    {
      var (i, lqi) := scanned[e];
      var neighbors;
      links, neighbors := LinkNeighbors(links, devices[i], lqi.neighbors, Get(routingTables, i), directory);
      assert lqis[..e + 1][..e] == lqis[..e];
      scanned := scanned[e := (i, Lqi(neighbors))];
    }
    assert lqis[..|lqis|] == lqis;
    assert scanned == FixedAll(lqis, directory);
  }
}
