/** The records that `deviceNetworkScan` reads and produces. Radio replies
    and the device directory are given as data. */
module Model {
  import opened Retry

  /** `neighbor.ieeeAddr` reported by firmware that does not know its
      neighbor's hardware address. */
  const NullIeeeAddr: string := "0x0000000000000000"
  /** `device.zh.type` of a leaf node, which is never queried. */
  const EndDevice: string := "EndDevice"
  /** `status` of a routing-table entry that is in use. */
  const Active: string := "ACTIVE"
  /** Largest relationship code that is still reported (3 = previous child). */
  const MaxRelationship: int := 3

  /** One row of a neighbor table (LQI reply). */
  datatype Neighbor = Neighbor(
    ieeeAddr: string,
    networkAddress: int,
    linkquality: int,
    depth: int,
    relationship: int)

  datatype Lqi = Lqi(neighbors: seq<Neighbor>)

  /** One row of a routing table. */
  datatype RoutingEntry = RoutingEntry(destinationAddress: int, status: string, nextHop: int)

  datatype RoutingTable = RoutingTable(table: seq<RoutingEntry>)

  /** A device of the directory, with what its two remote queries
      (`device.zh.lqi()` and `device.zh.routingTable()`) yield, invocation by
      invocation. */
  datatype Device = Device(
    ieeeAddr: string,
    deviceType: string,
    networkAddress: int,
    lqi: Request<Lqi>,
    routingTable: Request<RoutingTable>)

  function LqiOf(d: Device): Request<Lqi> { d.lqi }

  function RoutingTableOf(d: Device): Request<RoutingTable> { d.routingTable }

  /** One end of a link: a hardware and a network address. */
  datatype Endpoint = Endpoint(ieeeAddr: string, networkAddress: int)

  /** A link from a neighbor (`source`) to the device that heard it (`target`). */
  datatype Link = Link(
    source: Endpoint,
    target: Endpoint,
    linkquality: int,
    depth: int,
    routes: seq<RoutingEntry>)

  /** A node record of the published topology. */
  datatype Node = Node(ieeeAddr: string, friendlyName: string, deviceType: string, networkAddress: int)

  datatype Topology = Topology(nodes: seq<Node>, links: seq<Link>)
}
