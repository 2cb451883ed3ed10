/** The terminal interface: the resource list screen, whose state is the view it
    shows, the records behind that view and the table it draws, and the droplet
    detail screen, whose IP lookup, status colour and SSH result are pure. */
module Tui {
  import opened Base
  import opened Records
  import ApiClient

  // ---------------------------------------------------------------------------
  // The droplet detail screen.

  /** The colour a droplet status is shown in. */
  function StatusColor(status: string): (color: string)
    ensures status == "active" ==> color == "green"
    ensures status == "off" ==> color == "red"
    ensures status == "new" ==> color == "yellow"
    ensures status !in {"active", "off", "new"} ==> color == "white"
  {
    if status == "active" then "green"
    else if status == "off" then "red"
    else if status == "new" then "yellow"
    else "white"
  }

  /** `[color]text[/color]`. */
  function Markup(color: string, text: string): string {
    "[" + color + "]" + text + "[/" + color + "]"
  }

  /** `_status_color`: the status wrapped in its colour's opening and closing tags. */
  function StatusMarkup(status: string): (r: string)
    ensures |r| == |status| + 2 * |StatusColor(status)| + 5
    ensures r[..|StatusColor(status)| + 2] == "[" + StatusColor(status) + "]"
    ensures r[|StatusColor(status)| + 2..|StatusColor(status)| + 2 + |status|] == status
    ensures r[|StatusColor(status)| + 2 + |status|..] == "[/" + StatusColor(status) + "]"
  {
    Markup(StatusColor(status), status)
  }

  /** `_get_ip(kind)`: the address of the first v4 network of that kind, or "-". */
  function GetIp(nets: seq<NetworkV4>, kind: string): (ip: string)
    ensures (forall i :: 0 <= i < |nets| ==> nets[i].kind != kind) ==> ip == "-"
    ensures ip != "-" ==> (exists i :: 0 <= i < |nets| && nets[i].kind == kind && nets[i].ipAddress == ip
                                         && forall j :: 0 <= j < i ==> nets[j].kind != kind)
  {
    if nets == [] then "-"
    else if nets[0].kind == kind then nets[0].ipAddress
    else
      var ip := GetIp(nets[1..], kind);
      assert ip != "-" ==> (exists i :: 1 <= i < |nets| && nets[i].kind == kind && nets[i].ipAddress == ip
                                         && forall j :: 0 <= j < i ==> nets[j].kind != kind)
        by {
          if ip != "-" {
            var k :| 0 <= k < |nets[1..]| && nets[1..][k].kind == kind && nets[1..][k].ipAddress == ip
                     && forall j :: 0 <= j < k ==> nets[1..][j].kind != kind;
            assert nets[k + 1] == nets[1..][k];
            forall j | 0 <= j < k + 1 ensures nets[j].kind != kind {
              if j > 0 { assert nets[j] == nets[1..][j - 1]; }
            }
          }
        }
      ip
  }

  /** The lookup returns the first match exactly: the address of the first network
      of that kind, whatever the later ones hold. */
  lemma {:induction false} GetIpFirstMatch(nets: seq<NetworkV4>, kind: string, k: nat)
    requires k < |nets| && nets[k].kind == kind
    requires forall j :: 0 <= j < k ==> nets[j].kind != kind
    ensures GetIp(nets, kind) == nets[k].ipAddress
  {
    if k > 0 {
      GetIpFirstMatch(nets[1..], kind, k - 1);
    }
  }

  /** `action_ssh`: the application exits with `ssh root@<public ip>` when the
      droplet has a public address, and nothing happens otherwise. */
  function SshCommand(d: Droplet): (r: Option<string>)
    ensures r.None? <==> GetIp(d.v4, "public") == "-"
    ensures r.Some? ==> r.value == "ssh root@" + GetIp(d.v4, "public")
  {
    var ip := GetIp(d.v4, "public");
    if ip != "-" then Some("ssh root@" + ip) else None
  }

  /** The SSH result names the first public network's address. */
  lemma SshTargetsFirstPublicAddress(d: Droplet, k: nat)
    requires k < |d.v4| && d.v4[k].kind == "public" && d.v4[k].ipAddress != "-"
    requires forall j :: 0 <= j < k ==> d.v4[j].kind != "public"
    ensures SshCommand(d) == Some("ssh root@" + d.v4[k].ipAddress)
  {
    GetIpFirstMatch(d.v4, "public", k);
  }

  /** What a button on the detail screen does. */
  datatype DetailEffect = ExitWith(command: string) | Warn(message: string) | NoEffect

  function DetailButtonPressed(d: Droplet, buttonId: string): (e: DetailEffect)
    ensures buttonId == "ssh" && SshCommand(d).Some? <==> e.ExitWith?
    ensures e.ExitWith? ==> e.command == SshCommand(d).value
    ensures e.Warn? <==> buttonId == "reboot"
    ensures e.Warn? ==> e.message == "Reboot " + d.name + "? (not implemented yet)"
  {
    if buttonId == "ssh" then
      (match SshCommand(d) case Some(c) => ExitWith(c) case None => NoEffect)
    else if buttonId == "reboot" then Warn("Reboot " + d.name + "? (not implemented yet)")
    else NoEffect
  }

  // ---------------------------------------------------------------------------
  // The resource list screen.

  datatype View = Droplets | Volumes | Domains | Firewalls | Databases

  /** A record shown by the list screen; the list holds whatever the last
      successful fetch returned. */
  datatype Resource =
    | DropletRes(droplet: Droplet)
    | VolumeRes(volume: Volume)
    | DomainRes(domain: Domain)
    | FirewallRes(firewall: Firewall)
    | DatabaseRes(database: Database)

  function ViewOf(r: Resource): View {
    match r
    case DropletRes(_) => Droplets
    case VolumeRes(_) => Volumes
    case DomainRes(_) => Domains
    case FirewallRes(_) => Firewalls
    case DatabaseRes(_) => Databases
  }

  /** What the five list endpoints return when called. */
  datatype Api = Api(
    droplets: Listing<Droplet>, volumes: Listing<Volume>, domains: Listing<Domain>,
    firewalls: Listing<Firewall>, databases: Listing<Database>)

  function Lift<T>(l: Listing<T>, f: T -> Resource): Listing<Resource> {
    match l
    case Listed(items) => Listed(Map(f, items))
    case ListFailed => ListFailed
  }

  /** The fetch a view performs, its records wrapped as resources of that view. */
  function Fetch(api: Api, view: View): (l: Listing<Resource>)
    ensures l.Listed? ==> forall i :: 0 <= i < |l.items| ==> ViewOf(l.items[i]) == view
  {
    match view
    case Droplets => Lift(api.droplets, (d: Droplet) => DropletRes(d))
    case Volumes => Lift(api.volumes, (v: Volume) => VolumeRes(v))
    case Domains => Lift(api.domains, (d: Domain) => DomainRes(d))
    case Firewalls => Lift(api.firewalls, (f: Firewall) => FirewallRes(f))
    case Databases => Lift(api.databases, (d: Database) => DatabaseRes(d))
  }

  function Columns(view: View): seq<string> {
    match view
    case Droplets => ["ID", "Name", "Region", "Size", "IP", "Status"]
    case Volumes => ["ID", "Name", "Size (GB)", "Region", "Attached To"]
    case Domains => ["Domain", "TTL"]
    case Firewalls => ["ID", "Name", "Droplets", "Inbound Rules", "Outbound Rules"]
    case Databases => ["Name", "Engine", "Size", "Region", "Status"]
  }

  /** The status cell of the droplet table: green when active, red otherwise. */
  /** The droplet status is drawn green when active and red otherwise. */
  function DropletStatusCell(status: string): (cell: string)
    ensures |cell| >= 8 + |status|
    ensures cell[|cell| - 3..] == "[/]" && cell[|cell| - 3 - |status|..|cell| - 3] == status
    ensures status == "active" <==> cell[1] == 'g'
    ensures status == "active" ==> cell[..7] == "[green]"
  {
    if status == "active" then "[green]" + status + "[/]" else "[red]" + status + "[/]"
  }

  /** The table row a record is drawn as. */
  function RowOf(r: Resource): (row: Row)
    ensures |row| == |Columns(ViewOf(r))|
    ensures r.DropletRes? ==> row[0] == NatToString(r.droplet.id) && row[4] == FirstIpv4(r.droplet)
    ensures r.VolumeRes? ==> row[0] == Take(r.volume.id, 8) && row[4] == AttachedCell(r.volume)
    ensures r.DomainRes? ==> row[1] == (if r.domain.ttl.Some? then NatToString(r.domain.ttl.value) else "-")
    ensures r.FirewallRes? ==> (row[2] == NatToString(|r.firewall.dropletIds|)
                             && row[3] == NatToString(|r.firewall.inboundRules|)
                             && row[4] == NatToString(|r.firewall.outboundRules|))
  {
    match r
    case DropletRes(d) =>
      [NatToString(d.id), d.name, d.regionSlug, d.sizeSlug, FirstIpv4(d), DropletStatusCell(d.status)]
    case VolumeRes(v) =>
      [Take(v.id, 8), v.name, NatToString(v.sizeGigabytes), v.regionSlug, AttachedCell(v)]
    case DomainRes(d) =>
      [d.name, match d.ttl case Some(t) => NatToString(t) case None => "-"]
    case FirewallRes(f) =>
      [Take(f.id, 8), f.name, NatToString(|f.dropletIds|), NatToString(|f.inboundRules|),
       NatToString(|f.outboundRules|)]
    case DatabaseRes(db) =>
      [db.name, db.engine + " " + db.version, db.size, db.region, db.status]
  }

  /** The table-filling loop: one row per record, in order. */
  method DrawRows(items: seq<Resource>) returns (drawn: seq<Row>)
    ensures drawn == Map(RowOf, items)
  {
    drawn := [];
    for i := 0 to |items|
      invariant drawn == Map(RowOf, items[..i])
    {
      MapStep(RowOf, items, i);
      drawn := drawn + [RowOf(items[i])];
    }
    assert items[..|items|] == items;
  }

  datatype Notice = ErrorNotice | RefreshedNotice

  const NavButtonIds: seq<string> := ["btn-droplets", "btn-volumes", "btn-domains", "btn-firewalls", "btn-databases"]
  const NavViews: seq<View> := [Droplets, Volumes, Domains, Firewalls, Databases]

  class ResourceListScreen {
    var currentView: View
    var resources: seq<Resource>
    /** The table: its column headers and the rows drawn so far. */
    var columns: seq<string>
    var rows: seq<Row>
    /** The variant of each navigation button, in the order of `NavButtonIds`. */
    var variants: seq<string>
    var notices: seq<Notice>
    /** The detail screens pushed, each with the record it shows. */
    var pushed: seq<Resource>

    /** Row `i` of the table draws `resources[i]`, and every drawn record belongs
        to the current view. */
    predicate Valid()
      reads this
    {
      && |variants| == |NavButtonIds|
      && |rows| <= |resources|
      && (forall i :: 0 <= i < |rows| ==> rows[i] == RowOf(resources[i]) && ViewOf(resources[i]) == currentView)
    }

    constructor ()
      ensures Valid()
      ensures currentView == Droplets && resources == [] && rows == [] && pushed == [] && notices == []
      ensures variants == ["primary", "default", "default", "default", "default"]
    {
      currentView := Droplets;
      resources := [];
      columns := [];
      rows := [];
      variants := ["primary", "default", "default", "default", "default"];
      notices := [];
      pushed := [];
    }

    /** Every `load_*` method: switch the view, reset the table, then fetch. A
        failed fetch leaves `resources` as it was and the table empty, and posts an
        error notice; a successful one replaces `resources` and draws one row per
        record, in order. */
    method Load(view: View, api: Api)
      requires Valid()
      modifies this
      ensures Valid()
      ensures currentView == view && columns == Columns(view)
      ensures Fetch(api, view).ListFailed? ==>
                resources == old(resources) && rows == [] && notices == old(notices) + [ErrorNotice]
      ensures Fetch(api, view).Listed? ==>
                resources == Fetch(api, view).items && rows == Map(RowOf, resources) && notices == old(notices)
      ensures variants == old(variants) && pushed == old(pushed)
    {
      currentView := view;
      columns := Columns(view);
      rows := [];
      var fetched := Fetch(api, view);
      if fetched.ListFailed? {
        notices := notices + [ErrorNotice];
        return;
      }
      var drawn := DrawRows(fetched.items);
      resources, rows := fetched.items, drawn;
    }

    /** `on_mount`: resolve the client, then show the droplets. */
    method Mount(env: map<string, string>, api: Api) returns (exit: Option<int>)
      requires Valid()
      modifies this
      ensures Valid()
      ensures exit.Some? <==> ApiClient.GetClient(env).Exit?
      ensures exit.Some? ==> exit.value == 1 && unchanged(this)
      ensures exit.None? ==> currentView == Droplets && columns == Columns(Droplets)
      ensures exit.None? && Fetch(api, Droplets).ListFailed? ==>
                resources == old(resources) && rows == [] && notices == old(notices) + [ErrorNotice]
      ensures exit.None? && Fetch(api, Droplets).Listed? ==>
                resources == Fetch(api, Droplets).items && rows == Map(RowOf, resources) && notices == old(notices)
      ensures variants == old(variants) && pushed == old(pushed)
    {
      if ApiClient.GetClient(env).Exit? {
        return Some(1);
      }
      Load(Droplets, api);
      exit := None;
    }

    /** `action_refresh`: reload the view on screen and say so. */
    method Refresh(api: Api)
      requires Valid()
      modifies this
      ensures Valid()
      ensures currentView == old(currentView) && columns == Columns(currentView)
      ensures Fetch(api, currentView).ListFailed? ==>
                resources == old(resources) && rows == [] && notices == old(notices) + [ErrorNotice, RefreshedNotice]
      ensures Fetch(api, currentView).Listed? ==>
                resources == Fetch(api, currentView).items && rows == Map(RowOf, resources)
                && notices == old(notices) + [RefreshedNotice]
      ensures variants == old(variants) && pushed == old(pushed)
    {
      Load(currentView, api);
      notices := notices + [RefreshedNotice];
    }

    /** `on_button_pressed` for navigation button `index`: every button goes back
        to the default variant, the pressed one becomes primary, and its view is
        loaded. */
    method NavButtonPressed(index: nat, api: Api)
      requires Valid()
      requires index < |NavButtonIds|
      modifies this
      ensures Valid()
      ensures |variants| == |NavButtonIds|
      ensures forall i :: 0 <= i < |variants| ==> variants[i] == (if i == index then "primary" else "default")
      ensures currentView == NavViews[index] && columns == Columns(currentView)
      ensures Fetch(api, NavViews[index]).ListFailed? ==>
                resources == old(resources) && rows == [] && notices == old(notices) + [ErrorNotice]
      ensures Fetch(api, NavViews[index]).Listed? ==>
                resources == Fetch(api, NavViews[index]).items && rows == Map(RowOf, resources) && notices == old(notices)
      ensures pushed == old(pushed)
    {
      var i := 0;
      while i < |variants|
        invariant 0 <= i <= |variants| == |NavButtonIds|
        invariant forall k :: 0 <= k < i ==> variants[k] == "default"
        invariant Valid() && pushed == old(pushed) && resources == old(resources) && notices == old(notices)
      {
        variants := variants[i := "default"];
        i := i + 1;
      }
      variants := variants[index := "primary"];
      Load(NavViews[index], api);
    }

    /** `on_data_table_row_selected`: a detail screen for `resources[row]` is pushed
        exactly when the droplets view is on screen, there are resources and the
        row is in range; nothing else changes. */
    method RowSelected(row: int)
      requires Valid()
      modifies this
      ensures Valid()
      ensures (currentView == Droplets && resources != [] && 0 <= row < |resources|)
                ==> pushed == old(pushed) + [resources[row]]
      ensures !(currentView == Droplets && resources != [] && 0 <= row < |resources|) ==> pushed == old(pushed)
      ensures currentView == old(currentView) && resources == old(resources) && rows == old(rows)
      ensures variants == old(variants) && notices == old(notices) && columns == old(columns)
      // A row that is on screen in the droplets view always opens the droplet it shows.
      ensures currentView == Droplets && 0 <= row < |rows| ==>
                pushed[|pushed| - 1].DropletRes? && RowOf(pushed[|pushed| - 1]) == rows[row]
    {
      if currentView == Droplets && resources != [] {
        if 0 <= row < |resources| {
          pushed := pushed + [resources[row]];
        }
      }
    }
  }

  /** A droplet selected from a freshly loaded droplet list is the droplet at the
      selected position of the listing. */
  method SelectAfterLoad(api: Api, row: int) returns (s: ResourceListScreen)
    requires api.droplets.Listed? && 0 <= row < |api.droplets.items|
    ensures s.pushed == [DropletRes(api.droplets.items[row])]
  {
    s := new ResourceListScreen();
    s.Load(Droplets, api);
    s.RowSelected(row);
  }
}
