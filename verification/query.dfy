/** The query phase of `deviceNetworkScan`: choose the devices to query, ask
    each for its neighbor table and its routing table through the retry
    wrapper, and record the successful replies in two maps keyed by device.
    A device is identified by its position in the directory's device list. */
module Query {
  import opened Seqs
  import opened OrderedMaps
  import opened Retry
  import opened Model

  /** Whether the device at a position has the given hardware address. */
  function HasAddress(devices: seq<Device>, ieeeAddr: string): nat -> bool
  {
    (i: nat) => i < |devices| && devices[i].ieeeAddr == ieeeAddr
  }

  /** Whether the device at a position is not an end device. */
  function IsRouter(devices: seq<Device>): nat -> bool
  {
    (i: nat) => i < |devices| && devices[i].deviceType != EndDevice
  }

  /** The devices that match the scan target. */
  function Matching(devices: seq<Device>, ieeeAddr: string): seq<nat>
  {
    Filter(Positions(|devices|), HasAddress(devices, ieeeAddr))
  }

  /** Of those, the ones that are queried: every one that is not an end
      device, in directory order. */
  function Queried(devices: seq<Device>, ieeeAddr: string): (r: seq<nat>)
    ensures Increasing(r) && InRange(r, |devices|)
    ensures forall i :: i in r <==>
      0 <= i < |devices| && devices[i].ieeeAddr == ieeeAddr && devices[i].deviceType != EndDevice
  {
    FilterIncreasing(Positions(|devices|), HasAddress(devices, ieeeAddr));
    FilterIncreasing(Matching(devices, ieeeAddr), IsRouter(devices));
    FilterMembers(Positions(|devices|), HasAddress(devices, ieeeAddr));
    FilterMembers(Matching(devices, ieeeAddr), IsRouter(devices));
    var r := Filter(Matching(devices, ieeeAddr), IsRouter(devices));
    assert forall k :: 0 <= k < |r| ==> r[k] in r;
    r
  }

  ghost predicate InRange(queried: seq<nat>, n: nat)
  {
    forall k :: 0 <= k < |queried| ==> queried[k] < n
  }

  /** The map a sequence of queries of one kind leaves behind: the devices
      whose request finally succeeded, each with its reply, in query order. */
  function Collect<T>(devices: seq<Device>, queried: seq<nat>, request: Device -> Request<T>): (m: OrderedMap<nat, T>)
    requires InRange(queried, |devices|)
    ensures forall i :: i in Keys(m) ==> i in queried
    ensures KeysBelow(m, |devices|)
  {
    if queried == [] then []
    else
      var i := queried[|queried| - 1];
      var m := Collect(devices, queried[..|queried| - 1], request);
      match DoRequest(request(devices[i])).result
      case Ok(v) =>
        KeysAppend(m, (i, v));
        assert queried[|queried| - 1] < |devices|;
        m + [(i, v)]
      case Fail(_) => m
  }

  /** Whether the query of a kind of the device at a position succeeds,
      retry included. */
  function Succeeds<T>(devices: seq<Device>, request: Device -> Request<T>): nat -> bool
  {
    (i: nat) => i < |devices| && DoRequest(request(devices[i])).result.Ok?
  }

  /** The devices appear in the map in the order they were queried, and
      exactly those whose query succeeded. */
  lemma {:induction false} CollectOrder<T>(devices: seq<Device>, queried: seq<nat>, request: Device -> Request<T>)
    requires InRange(queried, |devices|)
    ensures Keys(Collect(devices, queried, request)) == Filter(queried, Succeeds(devices, request))
  {
    if queried != [] {
      var init := queried[..|queried| - 1];
      var i := queried[|queried| - 1];
      CollectOrder(devices, init, request);
      var m := Collect(devices, init, request);
      match DoRequest(request(devices[i])).result
      case Ok(v) =>
        KeysAppend(m, (i, v));
      case Fail(_) =>
    }
  }

  /** The entry of a device depends on that device's own request alone: it
      holds the reply exactly when the device was queried and its request
      succeeded, whatever the other devices' requests did. */
  lemma {:induction false} CollectGet<T>(devices: seq<Device>, queried: seq<nat>, request: Device -> Request<T>, i: nat)
    requires InRange(queried, |devices|) && Increasing(queried)
    ensures Get(Collect(devices, queried, request), i) ==
      if i in queried && DoRequest(request(devices[i])).result.Ok?
      then Some(DoRequest(request(devices[i])).result.value)
      else None
  {
    if queried != [] {
      var init := queried[..|queried| - 1];
      var last := queried[|queried| - 1];
      assert last !in init;
      assert i in queried <==> i in init || i == last;
      CollectGet(devices, init, request, i);
      var m := Collect(devices, init, request);
      match DoRequest(request(devices[last])).result
      case Ok(v) =>
        assert last !in Keys(m);
        assert m + [(last, v)] == Put(m, last, v);
      case Fail(_) =>
        if i == last {
          assert last !in Keys(m);
        }
    }
  }

  /** One more query: its success is recorded with `Map.prototype.set`, which
      appends since no device is queried twice. */
  lemma CollectStep<T>(devices: seq<Device>, queried: seq<nat>, request: Device -> Request<T>, k: nat)
    requires InRange(queried, |devices|) && Increasing(queried) && k < |queried|
    ensures var m := Collect(devices, queried[..k], request);
      var reply := DoRequest(request(devices[queried[k]])).result;
      Collect(devices, queried[..k + 1], request) == if reply.Ok? then Put(m, queried[k], reply.value) else m
  {
    assert queried[..k + 1][..k] == queried[..k];
    assert queried[k] !in queried[..k];
  }

  /** One `try` block of the query loop: one query through the retry
      wrapper, whose reply is recorded under the device if it succeeds and dropped (logged
      only) if it is thrown. */
  method Record<T>(m: OrderedMap<nat, T>, i: nat, request: Request<T>) returns (m': OrderedMap<nat, T>)
    ensures m' == if DoRequest(request).result.Ok? then Put(m, i, DoRequest(request).result.value) else m
  {
    m' := m;
    var reply := DoRequest(request);
    if reply.result.Ok? {
      m' := Put(m, i, reply.result.value);
    }
  }

  /** The query loop of `deviceNetworkScan`: query every selected device
      for its neighbor table and its routing table, each through the retry
      wrapper, and record the successes. */
  method QueryDevices(devices: seq<Device>, ieeeAddr: string)
    returns (lqis: OrderedMap<nat, Lqi>, routingTables: OrderedMap<nat, RoutingTable>)
    ensures lqis == Collect(devices, Queried(devices, ieeeAddr), LqiOf)
    ensures routingTables == Collect(devices, Queried(devices, ieeeAddr), RoutingTableOf)
  {
    var queried := Queried(devices, ieeeAddr);
    lqis, routingTables := [], [];
    for k := 0 to |queried|
      invariant lqis == Collect(devices, queried[..k], LqiOf)
      invariant routingTables == Collect(devices, queried[..k], RoutingTableOf)
    {
      var i := queried[k];
      var device := devices[i];

      lqis := Record(lqis, i, device.lqi);
      CollectStep(devices, queried, LqiOf, k);
      routingTables := Record(routingTables, i, device.routingTable);
      CollectStep(devices, queried, RoutingTableOf, k);
    }
    assert queried[..|queried|] == queried;
  }
}
