# Device network map scan

A model of `deviceNetworkScan` in the zigbee2mqtt device-networkmap
extension (`publish_device_networkmap.js`). Given a target hardware address,
the scan runs in two phases:

1. **Query phase.** It selects the directory's devices that have that
   address and are not end devices. It asks each of them for its neighbor
   table (LQI) and then for its routing table. Each request goes through
   `doRequest`: on a throw it sleeps 5 seconds and retries exactly once.
   Each successful reply is recorded in one of two insertion-ordered maps
   keyed by device. A failure is only logged, and the scan continues.
2. **Assembly phase.** For every device in the LQI map, in insertion order,
   and for every neighbor in its table, in table order:
   - A neighbor whose relationship code is above 3 is skipped.
   - Some firmware reports the null hardware address `0x0000000000000000`.
     When the directory resolves the neighbor's network address to a device,
     the record is corrected in place with that device's hardware address.
   - A link is built from the neighbor (source) to the scanned device
     (target). It copies link quality and depth. Its routes are the ACTIVE
     entries of the device's routing table whose next hop is the neighbor's
     network address, in table order, or none when there is no routing
     table.
   - The link is pushed onto `topology.links`.

   `topology.nodes` is created empty and never filled.

The modules:

- `Retry` (retry.dfy) is the retry wrapper. A remote request is given as
  data: the outcome of each invocation. The wrapper yields its result and a
  trace of invocations and pauses.
- `OrderedMaps` (ordered_map.dfy) is a JavaScript `Map`, modelled as a
  sequence of entries. `set` replaces an entry in place or appends one, and
  `get` looks an entry up.
- `Seqs` (seqs.dfy) holds `Array.prototype.filter` and index lists.
- `Model` (model.dfy) holds the records: neighbor, routing entry, device,
  link and topology.
- `Query` (query.dfy) is the query phase.
- `Assembly` (assembly.dfy) is the assembly phase.
- `Scan` (scan.dfy) is the whole scan, plus small worked scenarios.

A device is identified by its position in the directory's device list. This
stands for object identity, which is what the JavaScript maps are keyed by.
`deviceByNetworkAddress` is a map from network address to the hardware
address of the device it resolves to.

## Model

| member | source | states |
|---|---|---|
| Retry.DoRequest | publish_device_networkmap.js:58-70 | The result is the outcome of the last invocation. A successful or non-first attempt is a single invocation. A first attempt that throws is followed by a 5-second pause and exactly one more invocation. |
| Retry.RetryPolicy | publish_device_networkmap.js:58-70 | At most two invocations. Two happen exactly when the first throws. A first success is returned as is. Otherwise the second outcome (value or error) is the result. A pause occurs only between the two invocations, after a throw. |
| OrderedMaps.Get | publish_device_networkmap.js:116 | `Map.get` finds a value exactly when the key is present. |
| OrderedMaps.Put | publish_device_networkmap.js:74 | `Map.set`: the key then maps to the new value, and every other key's lookup is unchanged. A new key is appended at the end of the iteration order. An existing key keeps the order. |
| Query.Queried | publish_device_networkmap.js:52-56 | The queried devices are exactly the in-range positions whose hardware address is the target and whose type is not `EndDevice`. They are queried in directory order with no repeats. |
| Query.Collect | publish_device_networkmap.js:72-88 | The map holds only queried devices, all of them in the directory. |
| Query.CollectOrder | publish_device_networkmap.js:72-88 | The map's keys are the queried devices whose request (retry included) succeeded, in query order. |
| Query.CollectGet | publish_device_networkmap.js:72-88 | A device's entry holds its own reply exactly when it was queried and its own request succeeded. Other devices' outcomes do not affect it. |
| Query.Record | publish_device_networkmap.js:72-86 | One query through the retry wrapper: a success is recorded under the device with `Map.set`, and a throw leaves the map as it was. |
| Query.QueryDevices | publish_device_networkmap.js:52-89 | The query loop leaves the LQI map and the routing-table map equal to `Collect` over the selected devices, each with its own request kind. |
| Assembly.RoutesVia | publish_device_networkmap.js:116-121 | The routes of a link: none without a routing table, otherwise the table filtered to ACTIVE entries via the neighbor, never longer than the table. Its partner `RoutesViaSpec` states membership and order. |
| Assembly.RoutesViaSpec | publish_device_networkmap.js:116-121 | Without a routing table, the routes are empty. Otherwise an entry is a route exactly when it is in the table, ACTIVE, and has the neighbor as next hop. The routes keep table order (the filter distributes over concatenation). |
| Assembly.Corrected | publish_device_networkmap.js:105-108 | The null-address correction of one record. Its partners are `CorrectedIdempotent`, `Fixed` (the new address of every record) and `DeviceLinksSpec` (the source address of every link). |
| Assembly.CorrectedIdempotent | publish_device_networkmap.js:105-108 | Correcting an already corrected neighbor record changes nothing. |
| Assembly.Fixed | publish_device_networkmap.js:97-108 | The neighbor list after the pass has the same length, and every field except the hardware address is unchanged. A current neighbor that reported the null address and whose network address the directory resolves now has the directory's hardware address. Every other neighbor keeps its own. |
| Assembly.FixedAll | publish_device_networkmap.js:96-108 | The LQI map after the pass has the same devices, in the same order. Each device's neighbor list is that list as `Fixed` leaves it. |
| Assembly.LinkFrom | publish_device_networkmap.js:110-121 | The link built from one corrected neighbor of a scanned device. Its partner `DeviceLinksSpec` states each field of every link. |
| Assembly.DeviceLinks | publish_device_networkmap.js:97-124 | The links one scanned device contributes, never more than it has neighbors. Its partner `DeviceLinksSpec` states which neighbors yield a link, in what order, and with which fields. |
| Assembly.DeviceLinksSpec | publish_device_networkmap.js:97-124 | One link per current neighbor (relationship ≤ 3), none for the others, in neighbor order. Each link's source address is the corrected hardware address and the reported network address. Its target is the scanned device. Link quality and depth are copied. Its routes are that neighbor's routes. |
| Assembly.Links | publish_device_networkmap.js:96-125 | The links of all devices in the LQI map. Its partners are `LinksCount` (how many) and `LinksOrder` (in what order). |
| Assembly.LinksCount | publish_device_networkmap.js:96-124 | The number of links is the number of current neighbors summed over all devices in the LQI map. |
| Assembly.LinksOrder | publish_device_networkmap.js:96-125 | Links come device by device in the LQI map's iteration order: the links of the map `a + b` are the links of `a` followed by those of `b`. |
| Assembly.NeighborLink | publish_device_networkmap.js:103-121 | For one current neighbor, the returned record is the corrected neighbor and the link is the one built from it. |
| Assembly.LinkNeighbors | publish_device_networkmap.js:97-124 | The neighbor loop of one device appends exactly that device's links to the links so far, and leaves the neighbor list fixed in place. |
| Assembly.AssembleLinks | publish_device_networkmap.js:93-125 | The `forEach` over the LQI map yields `Links` of the map and leaves every neighbor list fixed in place. |
| Scan.DeviceNetworkScan | publish_device_networkmap.js:51-128 | The topology has no nodes. Its links are those of the maps built by the query phase. |
| Scan.ScannedDevice | publish_device_networkmap.js:52-124 | A device contributes links only if it has the target address, is not an end device, and its LQI request succeeded. It then has one link per current neighbor. If its routing-table request failed, all its links have empty routes. |
| Scan.ScanLinkCount | publish_device_networkmap.js:51-128 | A scan yields one link per current neighbor of every device whose LQI was obtained. |
| Scan.ChildWithActiveRoute | publish_device_networkmap.js:96-123 | Scenario: a router hears a child and a neighbor with relationship 5, and its table holds an inactive route and an active route via the child. The scan yields exactly one link, from the child, carrying just the active route. |
| Scan.NullAddressResolved | publish_device_networkmap.js:103-114 | Scenario: a current neighbor reported with the null address becomes a link whose source has the directory's hardware address when the network address resolves. Otherwise the source keeps the null address. |
| Scan.RetriedNeighborTable | publish_device_networkmap.js:58-78 | Scenario: an LQI request that throws once and then succeeds is invoked twice with a 5-second pause between, and the second reply is recorded. |
| Scan.OnlyDeviceQueried | publish_device_networkmap.js:52-88 | With a single router in the directory that has the target address, that router is the one queried, and each map holds its reply exactly when the corresponding request succeeds. |

## Left out

- `topology.nodes`: it is always `[]`. The code creates the list empty at line 93 and never adds to it, although a network map might be expected to list every known device as a node. The model follows the code.
- The constructor, `start`/`stop`, the MQTT subscription and publication, and `stringify`: these are transport glue around the scan.
- `utils.sleep(5)`: modelled as a `Pause(5)` event in the retry trace. No timing is modelled.
- `device.zh.lqi()`, `device.zh.routingTable()` and `deviceByNetworkAddress`: these are radio and directory calls. They are given as data (the outcome of each invocation, and a map from network address).
- Logging (`logger.debug`, `logger.error`, `logger.info`): no observable effect on the topology.
- `async`/`await`: the scan is modelled as one sequential flow. This is how the code runs, since each request is awaited before the next starts.
- Error values: a thrown error is an opaque string. Its contents are never used by the scan.
- The `Link` interface's fields `sourceIeeeAddr`, `targetIeeeAddr`, `sourceNwkAddr`, `lqi` and `relationship`: the scan never sets them. The node record's metadata fields (manufacturer, model, definition, failures, last seen) are not modelled either, since no node is produced.
- Aliasing: the neighbor records are fixed in place in the code. In the model they are fixed on values, and the fixed map is returned. Any other holder of the same objects seeing the change is not modelled.
- `routingTables.get(device)`: this is evaluated once per device rather than once per neighbor. This is equivalent, because the map is not changed during assembly.
