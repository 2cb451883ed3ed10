/** The provider's API records, as the commands read them. A list field that every
    reader treats as empty when it is missing is a plain sequence here; a field
    whose mere presence matters is an Option. Timestamps are whole seconds, money
    is whole cents. */
module Records {
  import opened Base

  datatype NetworkV4 = NetworkV4(kind: string, ipAddress: string)

  datatype Droplet = Droplet(
    id: nat,
    name: string,
    regionSlug: string,
    sizeSlug: string,
    vcpus: nat,
    memory: nat,
    disk: nat,
    v4: seq<NetworkV4>,                // networks.v4; a missing list reads as empty
    status: string,
    tags: seq<string>,                 // a missing tag list reads as empty
    sizePriceMonthly: Option<int>)     // size.price_monthly, in cents, when present

  datatype Volume = Volume(
    id: string,
    name: string,
    sizeGigabytes: nat,
    regionSlug: string,
    createdAt: string,
    dropletIds: seq<nat>)              // a missing list reads as empty

  /** `createdAt` is the creation time in seconds since 1970-01-01T00:00:00Z. */
  datatype Snapshot = Snapshot(id: string, name: string, minDiskSize: nat, createdAt: int)

  datatype FloatingIp = FloatingIp(ip: string, regionSlug: string, droplet: Option<nat>)

  datatype LoadBalancer = LoadBalancer(
    id: string, name: string, region: string, ip: string, status: string, dropletIds: seq<nat>)

  datatype Domain = Domain(name: string, ttl: Option<nat>)

  datatype DomainRecord = DomainRecord(kind: string, name: string, data: string, ttl: nat)

  /** The `sources` / `destinations` object of a firewall rule; either key may be absent. */
  datatype Peers = Peers(addresses: Option<seq<string>>, dropletIds: Option<seq<nat>>)

  datatype FirewallRule = FirewallRule(protocol: string, ports: string, peers: Peers)

  datatype Firewall = Firewall(
    id: string, name: string, dropletIds: seq<nat>,
    inboundRules: seq<FirewallRule>, outboundRules: seq<FirewallRule>)

  datatype Database = Database(
    name: string, engine: string, version: string, size: string, region: string, status: string)

  datatype NodePool = NodePool(count: nat)

  datatype KubernetesCluster = KubernetesCluster(
    name: string, region: string, version: string, nodePools: seq<NodePool>, state: string)

  datatype AppSpec = AppSpec(name: string, liveUrl: Option<string>)

  /** A rendered table row: one string per column. */
  type Row = seq<string>

  /** The first IPv4 address a droplet lists, whatever its type, or "-". */
  function FirstIpv4(d: Droplet): (ip: string)
    ensures d.v4 == [] ==> ip == "-"
    ensures d.v4 != [] ==> ip == d.v4[0].ipAddress
  {
    if d.v4 != [] then d.v4[0].ipAddress else "-"
  }

  /** `str(x)` of each attached droplet id. */
  function IdStrings(ids: seq<nat>): (r: seq<string>)
    ensures |r| == |ids|
  {
    Map(NatToString, ids)
  }

  /** The "Attached To" cell of a volume: its droplet ids joined with ", ", or "-"
      when it is attached to nothing. */
  function AttachedCell(v: Volume): (r: string)
    ensures r == "-" <==> v.dropletIds == []
    ensures v.dropletIds != [] ==> r == Join(", ", IdStrings(v.dropletIds))
  {
    var ids := IdStrings(v.dropletIds);
    assert |ids| == 1 ==> ids[0] == NatToString(v.dropletIds[0]) && ids[0][0] != '-';
    JoinOrDash(ids)
  }

  /** The node count of a Kubernetes cluster: the sum of its pools' counts. */
  function NodeCount(pools: seq<NodePool>): (n: nat)
    ensures pools == [] ==> n == 0
    ensures forall i :: 0 <= i < |pools| ==> pools[i].count <= n
  {
    if pools == [] then 0 else NodeCount(pools[..|pools| - 1]) + pools[|pools| - 1].count
  }

  /** Pools concatenated add their node counts. */
  lemma {:induction false} NodeCountAppend(a: seq<NodePool>, b: seq<NodePool>)
    ensures NodeCount(a + b) == NodeCount(a) + NodeCount(b)
    decreases |b|
  {
    if b == [] {
      assert a + b == a;
    } else {
      var b' := b[..|b| - 1];
      assert (a + b)[..|a + b| - 1] == a + b';
      NodeCountAppend(a, b');
    }
  }
}
