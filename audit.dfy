/** `dom audit`: listings of the account's resources. `audit all` shows every
    kind of resource in its own section, each guarded on its own; `audit droplets`
    filters by region and tag; `audit firewalls` shows each rule's peers. */
module Audit {
  import opened Base
  import opened Records

  // ---------------------------------------------------------------------------
  // `audit all`.

  /** One section of `audit all`: the error line, the "No ... found" line, or the
      table rows / bullet lines of the records listed. */
  datatype Section<R> = Failed | NoneFound | Shown(lines: seq<R>)

  /** What a section shows for what its list call produced. */
  function SectionOf<T, R>(l: Listing<T>, f: T -> R): (s: Section<R>)
    ensures s.Failed? <==> l.ListFailed?
    ensures s.NoneFound? <==> l.Listed? && l.items == []
    ensures s.Shown? ==> |s.lines| == |l.items| > 0 && forall i :: 0 <= i < |l.items| ==> s.lines[i] == f(l.items[i])
  {
    match l
    case ListFailed => Failed
    case Listed(items) => if items == [] then NoneFound else Shown(Map(f, items))
  }

  /** The table-filling loop: one row (or printed line) per record, in order. */
  method Tabulate<T, R>(items: seq<T>, f: T -> R) returns (rows: seq<R>)
    ensures rows == Map(f, items)
  {
    rows := [];
    for i := 0 to |items|
      invariant rows == Map(f, items[..i])
    {
      MapStep(f, items, i);
      rows := rows + [f(items[i])];
    }
    assert items[..|items|] == items;
  }

  /** The body of one `try` block: the list call, then a table filled row by row
      or a bullet printed per record. Whatever the call does, the section ends
      normally. */
  method ShowSection<T, R>(l: Listing<T>, f: T -> R) returns (s: Section<R>)
    ensures s == SectionOf(l, f)
  {
    if l.ListFailed? {
      return Failed;
    }
    if l.items == [] {
      return NoneFound;
    }
    var lines := Tabulate(l.items, f);
    s := Shown(lines);
  }

  function SummaryDropletRow(d: Droplet): (row: Row)
    ensures |row| == 6 && row[0] == NatToString(d.id) && row[4] == FirstIpv4(d)
  {
    [NatToString(d.id), d.name, d.regionSlug, d.sizeSlug, FirstIpv4(d), d.status]
  }

  function SummaryVolumeRow(v: Volume): (row: Row)
    ensures |row| == 5 && row[0] == v.id && row[4] == AttachedCell(v)
  {
    [v.id, v.name, NatToString(v.sizeGigabytes), v.regionSlug, AttachedCell(v)]
  }

  /** A domain's line is the bullet followed by its name and nothing else. */
  function DomainLine(d: Domain): (line: string)
    ensures |line| == 4 + |d.name| && line[..4] == "  - " && line[4..] == d.name
  {
    "  - " + d.name
  }

  /** A firewall's line names it and ends with its droplet count. */
  function FirewallLine(fw: Firewall): (line: string)
    ensures |line| > 14 + |fw.name|
    ensures line[..4] == "  - " && line[4..4 + |fw.name|] == fw.name
    ensures line[|line| - 10..] == " droplets)"
  {
    "  - " + fw.name + " (" + NatToString(|fw.dropletIds|) + " droplets)"
  }

  /** A load balancer's line names it and ends with its status. */
  function LoadBalancerLine(lb: LoadBalancer): (line: string)
    ensures |line| >= 4 + |lb.name| + |lb.status|
    ensures line[..4] == "  - " && line[4..4 + |lb.name|] == lb.name
    ensures line[|line| - |lb.status|..] == lb.status
  {
    "  - " + lb.name + " (" + lb.ip + ") - " + lb.status
  }

  /** A cluster's row: name, engine and version in one cell, size, region, status. */
  function DatabaseRow(db: Database): (row: Row)
    ensures |row| == 5 && row[0] == db.name && row[4] == db.status
    ensures |row[1]| == |db.engine| + 1 + |db.version|
    ensures row[1][..|db.engine|] == db.engine && row[1][|db.engine| + 1..] == db.version
  {
    [db.name, db.engine + " " + db.version, db.size, db.region, db.status]
  }

  function KubernetesRow(k: KubernetesCluster): (row: Row)
    ensures |row| == 5 && row[3] == NatToString(NodeCount(k.nodePools))
  {
    [k.name, k.region, k.version, NatToString(NodeCount(k.nodePools)), k.state]
  }

  /** An app's line shows its live URL when the record has one, "no url" otherwise. */
  function AppLine(a: AppSpec): (line: string)
    ensures a.liveUrl.None? ==> line == "  - " + a.name + " - no url"
    ensures a.liveUrl.Some? ==> line == "  - " + a.name + " - " + a.liveUrl.value
  {
    "  - " + a.name + " - " + a.liveUrl.GetOr("no url")
  }

  /** The Nodes column counts every node of every pool, and a cluster without
      pools has none. */
  lemma KubernetesNodesColumn(k: KubernetesCluster, pool: NodePool)
    ensures KubernetesRow(k.(nodePools := []))[3] == "0"
    ensures KubernetesRow(k.(nodePools := k.nodePools + [pool]))[3]
            == NatToString(NodeCount(k.nodePools) + pool.count)
  {
    NodeCountAppend(k.nodePools, [pool]);
    assert NodeCount([pool]) == pool.count by {
      assert [pool][..0] == [];
    }
  }

  /** What the eight list calls of `audit all` produce. */
  datatype AllApi = AllApi(
    droplets: Listing<Droplet>, volumes: Listing<Volume>, domains: Listing<Domain>,
    firewalls: Listing<Firewall>, loadBalancers: Listing<LoadBalancer>,
    databases: Listing<Database>, kubernetes: Listing<KubernetesCluster>, apps: Listing<AppSpec>)

  datatype AllAudit = AllAudit(
    droplets: Section<Row>, volumes: Section<Row>, domains: Section<string>,
    firewalls: Section<string>, loadBalancers: Section<string>,
    databases: Section<Row>, kubernetes: Section<Row>, apps: Section<string>)

  /** `audit all`: each section depends on its own list call only, so a failing
      call costs its own section and every other section is still shown. */
  method AuditAll(api: AllApi) returns (r: AllAudit)
    ensures r.droplets == SectionOf(api.droplets, SummaryDropletRow)
    ensures r.volumes == SectionOf(api.volumes, SummaryVolumeRow)
    ensures r.domains == SectionOf(api.domains, DomainLine)
    ensures r.firewalls == SectionOf(api.firewalls, FirewallLine)
    ensures r.loadBalancers == SectionOf(api.loadBalancers, LoadBalancerLine)
    ensures r.databases == SectionOf(api.databases, DatabaseRow)
    ensures r.kubernetes == SectionOf(api.kubernetes, KubernetesRow)
    ensures r.apps == SectionOf(api.apps, AppLine)
  {
    var droplets := ShowSection(api.droplets, SummaryDropletRow);
    var volumes := ShowSection(api.volumes, SummaryVolumeRow);
    var domains := ShowSection(api.domains, DomainLine);
    var firewalls := ShowSection(api.firewalls, FirewallLine);
    var loadBalancers := ShowSection(api.loadBalancers, LoadBalancerLine);
    var databases := ShowSection(api.databases, DatabaseRow);
    var kubernetes := ShowSection(api.kubernetes, KubernetesRow);
    var apps := ShowSection(api.apps, AppLine);
    r := AllAudit(droplets, volumes, domains, firewalls, loadBalancers, databases, kubernetes, apps);
  }

  // ---------------------------------------------------------------------------
  // `audit droplets`.

  /** The request parameters: `tag_name` is sent exactly when a non-empty tag is given. */
  function TagParams(tag: Option<string>): (params: map<string, string>)
    ensures "tag_name" in params <==> tag.Some? && tag.value != ""
    ensures "tag_name" in params ==> params["tag_name"] == tag.value
    ensures forall k :: k in params ==> k == "tag_name"
  {
    if tag.Some? && tag.value != "" then map["tag_name" := tag.value] else map[]
  }

  /** The droplets of one region, in listing order. */
  function InRegion(ds: seq<Droplet>, region: string): seq<Droplet> {
    Filter((d: Droplet) => d.regionSlug == region, ds)
  }

  /** The region filter keeps exactly the droplets of that region, in order. */
  lemma InRegionExact(ds: seq<Droplet>, more: seq<Droplet>, region: string)
    ensures forall d :: d in InRegion(ds, region) <==> d in ds && d.regionSlug == region
    ensures InRegion(ds + more, region) == InRegion(ds, region) + InRegion(more, region)
  {
    forall d | d in ds && d.regionSlug == region ensures d in InRegion(ds, region) {
      var i :| 0 <= i < |ds| && ds[i] == d;
    }
    FilterAppend((d: Droplet) => d.regionSlug == region, ds, more);
  }

  /** `if region:` filters only on a non-empty region. */
  function RegionSelected(ds: seq<Droplet>, region: Option<string>): (r: seq<Droplet>)
    ensures region.None? || region.value == "" ==> r == ds
    ensures region.Some? && region.value != "" ==> r == InRegion(ds, region.value)
  {
    if region.Some? && region.value != "" then InRegion(ds, region.value) else ds
  }

  /** One row of the droplet table. */
  function DetailDropletRow(d: Droplet): (row: Row)
    ensures |row| == 10
    ensures row[0] == NatToString(d.id) && row[7] == FirstIpv4(d)
    ensures row[9] == "-" <==> d.tags == [] || d.tags == [""] || d.tags == ["-"]
  {
    [NatToString(d.id), d.name, d.regionSlug, d.sizeSlug, NatToString(d.vcpus),
     NatToString(d.memory) + " MB", NatToString(d.disk) + " GB", FirstIpv4(d), d.status,
     JoinOrDash(d.tags)]
  }

  datatype DropletsAudit = NoDroplets | DropletTable(rows: seq<Row>, total: nat)

  /** `audit droplets`: the listing requested with the tag parameter, narrowed to
      the region; "No droplets found" when nothing is left, otherwise one row per
      droplet and the count of rows as the total. The list call is unguarded. */
  method AuditDroplets(region: Option<string>, tag: Option<string>,
                       respond: map<string, string> -> Listing<Droplet>)
    returns (r: Outcome<DropletsAudit>)
    ensures respond(TagParams(tag)).ListFailed? <==> r == Crash
    ensures r.Done? ==>
              var shown := RegionSelected(respond(TagParams(tag)).items, region);
              && (r.value.NoDroplets? <==> shown == [])
              && (r.value.DropletTable? ==> r.value.rows == Map(DetailDropletRow, shown) && r.value.total == |shown|)
  {
    var listing := respond(TagParams(tag));
    if listing.ListFailed? {
      return Crash;
    }
    var droplets := listing.items;
    if region.Some? && region.value != "" {
      droplets := InRegion(droplets, region.value);
    }
    if droplets == [] {
      return Done(NoDroplets);
    }
    var rows := Tabulate(droplets, DetailDropletRow);
    r := Done(DropletTable(rows, |droplets|));
  }

  // ---------------------------------------------------------------------------
  // `audit firewalls`.

  /** The peers a rule line shows: a list of addresses or of droplet ids. */
  datatype PeerList = AddressList(addresses: seq<string>) | IdList(ids: seq<nat>)

  /** `peers.get("addresses", peers.get("droplet_ids", ["any"]))`: the fallback is
      on the presence of a key, so an empty address list still wins. */
  function RulePeers(p: Peers): (r: PeerList)
    ensures p.addresses.Some? ==> r == AddressList(p.addresses.value)
    ensures p.addresses.None? && p.dropletIds.Some? ==> r == IdList(p.dropletIds.value)
    ensures p.addresses.None? && p.dropletIds.None? ==> r == AddressList(["any"])
  {
    match p.addresses
    case Some(a) => AddressList(a)
    case None => match p.dropletIds
      case Some(ids) => IdList(ids)
      case None => AddressList(["any"])
  }

  /** A rule without a sources (or destinations) object reads as open to any peer. */
  lemma MissingPeersMeansAny()
    ensures RulePeers(Peers(None, None)) == AddressList(["any"])
  {
  }

  datatype RuleLine = RuleLine(protocol: string, ports: string, peers: PeerList)

  function RuleLineOf(rule: FirewallRule): (line: RuleLine)
    ensures line.protocol == rule.protocol && line.ports == rule.ports
    ensures line.peers == RulePeers(rule.peers)
  {
    RuleLine(rule.protocol, rule.ports, RulePeers(rule.peers))
  }

  /** What is printed for one firewall: its name and id, how many droplets it
      applies to, and its inbound ("from") and outbound ("to") rule lines. An empty
      rule list prints no heading. */
  datatype FirewallBlock = FirewallBlock(
    name: string, id: string, dropletCount: nat, inbound: seq<RuleLine>, outbound: seq<RuleLine>)

  function FirewallBlockOf(fw: Firewall): (b: FirewallBlock)
    ensures b.dropletCount == |fw.dropletIds|
    ensures |b.inbound| == |fw.inboundRules| && |b.outbound| == |fw.outboundRules|
    ensures forall i :: 0 <= i < |fw.inboundRules| ==> b.inbound[i].peers == RulePeers(fw.inboundRules[i].peers)
    ensures forall i :: 0 <= i < |fw.outboundRules| ==> b.outbound[i].peers == RulePeers(fw.outboundRules[i].peers)
  {
    FirewallBlock(fw.name, fw.id, |fw.dropletIds|, Map(RuleLineOf, fw.inboundRules), Map(RuleLineOf, fw.outboundRules))
  }

  datatype FirewallsAudit = NoFirewalls | FirewallBlocks(blocks: seq<FirewallBlock>)

  /** `audit firewalls`: the list call is unguarded; an empty list prints "No
      firewalls found"; otherwise one block per firewall, in order. */
  method AuditFirewalls(firewalls: Listing<Firewall>) returns (r: Outcome<FirewallsAudit>)
    ensures firewalls.ListFailed? <==> r == Crash
    ensures r.Done? ==> (r.value.NoFirewalls? <==> firewalls.items == [])
    ensures r.Done? && r.value.FirewallBlocks? ==> r.value.blocks == Map(FirewallBlockOf, firewalls.items)
  {
    if firewalls.ListFailed? {
      return Crash;
    }
    var fws := firewalls.items;
    if fws == [] {
      return Done(NoFirewalls);
    }
    var blocks := Tabulate(fws, FirewallBlockOf);
    r := Done(FirewallBlocks(blocks));
  }
}
