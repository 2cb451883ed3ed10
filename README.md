# dom — a verified model of the DigitalOcean infrastructure manager

`dom` is a command-line tool and a small terminal UI over the DigitalOcean API.
This project models the parts of it that decide something:

- **client** (`client.dfy`): how the API client is obtained from the environment,
  and the error decorator.
- **audit** (`audit.dfy`): `audit all` with its independent sections, `audit
  droplets` with its tag and region filters, and `audit firewalls` with its
  peer fallback.
- **costs** (`costs.dfy`): `costs estimate` with its price table and fallbacks,
  and `costs by-tag` with its per-tag tally, its ordering by decreasing cost and
  its untagged row.
- **cleanup** (`cleanup.dfy`): `cleanup all`, `cleanup volumes` with its
  dry-run, force and confirmation gates and its best-effort deletes, and
  `cleanup snapshots` with its age cutoff.
- **ansible** (`ansible.dfy`): the `ans` Typer app of `dom/commands/ans.py`,
  covering the inventory and playbook lookups, the `ansible` /
  `ansible-playbook` command lines, and the playbook descriptions.
- **terraform** (`terraform.dfy`): the `tf` Typer app of `dom/commands/tf.py`,
  covering the `terraform` command lines and the line-by-line replay of the
  generated import script.
- **tui** (`tui.dfy`): the terminal UI's resource list screen, a class whose
  methods update its view, records, table, button variants, notices and pushed
  screens. It also covers the droplet detail screen's status colour, IP lookup
  and SSH action.

`base.dfy` holds the shared vocabulary:

- listings that succeed or fail;
- command outcomes: done, an exit with a status, or an uncaught exception;
- child-process runs;
- sequence filters and maps;
- Python's `str.strip`, `", ".join` and `str(int)`.

`records.dfy` holds the API records as datatypes.

Conventions of the model:

- Money is in integer cents: $0.10 per GB is 10 cents per GB.
- Time is in integer seconds since 1970-01-01T00:00:00Z.
- The file system is the set of paths that exist.
- Anything the program cannot see in advance is a parameter:
  - what each API call returns (a `Listing`, or a function from request parameters to one);
  - a child process's exit status;
  - whether a delete raises;
  - the answer to a confirmation prompt;
  - the current time.

Three behaviours of the code worth knowing:

- **Exit status of the tool wrappers.** `run_ansible`, `run_ansible_playbook` and `run_terraform` return the child's status; every command drops it and ends normally. `RunTool` and `RunTerraform` return it; the commands do not pass it on.
- **`cleanup snapshots --execute`.** It deletes nothing: `--execute` only removes the dry-run notice.
- **`cleanup all`.** It never deletes, whatever `--dry-run/--execute` says.

## Model

| member | source | states |
|---|---|---|
| ApiClient.GetClient | dom/utils/client.py:12-23 | exit 1 exactly when neither `DIGITALOCEAN_TOKEN` nor `DO_TOKEN` is set to a non-empty value; otherwise the client holds `DIGITALOCEAN_TOKEN` when set, else `DO_TOKEN` |
| ApiClient.ClientTokenNonEmpty | dom/utils/client.py:16-23 | a client is never built with an empty token |
| ApiClient.FallbackIgnoredWhenPrimarySet | dom/utils/client.py:14 | when `DIGITALOCEAN_TOKEN` is set, `DO_TOKEN` has no effect on the outcome |
| ApiClient.HandleApiError | dom/utils/client.py:26-34 | a call that returns passes its value through; a call that raises becomes an exit with status 1 |
| Records.FirstIpv4 | dom/commands/audit.py:36 | the IP cell is the first v4 address, or "-" when there is none |
| Records.AttachedCell | dom/tui/app.py:148 | the attached-to cell is "-" exactly when the volume has no droplets, else their ids joined by ", " |
| Records.NodeCount | dom/commands/audit.py:153 | no pools count zero nodes; every pool's count is within the total |
| Records.NodeCountAppend | dom/commands/audit.py:153 | the node total over two lists of pools is the sum of their totals |
| Base.JoinOrDash | dom/commands/audit.py:221 | the tags cell is "-" exactly when the tags are empty, a single empty tag or a single "-", and the comma-joined tags otherwise |
| Cleanup.UnattachedVolumesExact | dom/commands/cleanup.py:28 | a volume is listed as unattached exactly when it is in the listing and has no droplet ids; the filter keeps listing order |
| Cleanup.OrphanFiltersExact | dom/commands/cleanup.py:60-81 | an IP is unassigned exactly when it has no droplet; a load balancer is empty exactly when it has no droplet ids; both keep listing order |
| Cleanup.SavingsTable | dom/commands/cleanup.py:38-45 | one row per unattached volume at 10 cents per GB, and the savings total is 10 cents times their total size |
| Cleanup.CleanupAll | dom/commands/cleanup.py:14-99 | a failed volume listing ends the command; the other three sections swallow their failures; "no opportunities" exactly when no section found anything; nothing is deleted |
| Cleanup.CleanupVolumes | dom/commands/cleanup.py:103-150 | deletes are attempted exactly when some volume is unattached, `--execute` is given, and `--force` or a yes answer; the prompt is asked exactly when not forced; one attempt per unattached volume, in order, each failure reported and skipped |
| Cleanup.Cutoff | dom/commands/cleanup.py:165 | the cutoff lies the given number of days before now, and never after it for a non-negative count |
| Cleanup.DefaultCutoffInRange | dom/commands/cleanup.py:155-165 | the default of 90 days cannot overflow for any current time from 1970 to the year 9999 |
| Cleanup.MillionDaysOverflow | dom/commands/cleanup.py:165 | `--older-than 1000000` raises `OverflowError` at any time before 24264403200 seconds, and not at that time |
| Cleanup.SnapshotsBeforeExact | dom/commands/cleanup.py:165-171 | a snapshot is selected exactly when it was created strictly before now minus the given days; one created exactly at the cutoff is not |
| Cleanup.CleanupSnapshots | dom/commands/cleanup.py:154-194 | the command crashes exactly when the listing fails or the cutoff overflows: more than 999999999 days either way, or a cutoff outside the years 1 to 9999; otherwise the old snapshots in listing order, or "none older"; `--execute` only drops the dry-run notice |
| Costs.EstimatePrice | dom/commands/costs.py:62-67 | a listed size costs its table price; an unlisted one costs the size's own monthly price, or 0 without one |
| Costs.AddRows | dom/commands/costs.py:62-68 | the loop appends one price row per item, in order, and keeps the running total equal to the sum of the rows |
| Costs.CostEstimate | dom/commands/costs.py:36-107 | a failed droplet or volume listing ends the command; a failed database listing only drops its table; the total is the sum of the three tables |
| Costs.DropletRowsTotal | dom/commands/costs.py:62-67 | the droplet table totals the estimate prices of the droplets |
| Costs.VolumeRowsTotal | dom/commands/costs.py:80-82 | the volume table totals 10 cents per GB over all volumes |
| Costs.DatabaseRowsTotal | dom/commands/costs.py:97-100 | every database cluster adds the flat $15 |
| Costs.ByTagPrice | dom/commands/costs.py:133 | a listed size costs its table price, any other $10; a price is always positive |
| Costs.LargestSizePricedDifferently | dom/commands/costs.py:118-125 | `s-8vcpu-16gb` is $96 in the estimate but falls back to $10 in the by-tag breakdown, whose table lacks it |
| Costs.FirstSeenElements | dom/commands/costs.py:129-138 | the tag order holds every tag once, and nothing else |
| Costs.AddToTagsOrder | dom/commands/costs.py:137-138 | adding a droplet's tags extends the insertion order with the tags not seen before, in first-seen order |
| Costs.AddTags | dom/commands/costs.py:137-138 | the inner loop updates the dictionary in place to the tally the tag additions define, adding unseen tags at the end of the key order |
| Costs.AddToTagsCost | dom/commands/costs.py:137-138 | each tag gains the price once per occurrence in the droplet's tags; the untagged total is unchanged |
| Costs.TallyOfAgrees | dom/commands/costs.py:132-140 | after the loop, the dictionary holds exactly the tags seen, in first-seen order, each at the total price of the droplets carrying it, and the untagged total is the price of the untagged droplets |
| Costs.UntaggedCostPositive | dom/commands/costs.py:150 | the untagged total is positive exactly when some droplet has no tags |
| Costs.AllTagsEmpty | dom/commands/costs.py:142 | the tag dictionary is empty exactly when no droplet has a tag |
| Costs.Items | dom/commands/costs.py:147 | the dictionary items are the tags in insertion order, each with its cost |
| Costs.SortByCostCorrect | dom/commands/costs.py:147 | the sorted rows are in non-increasing cost order and are a permutation of the items |
| Costs.SortByCostStable | dom/commands/costs.py:147 | rows of equal cost keep their insertion order, as Python's stable `sorted` does |
| Costs.SortByCostDistinct | dom/commands/costs.py:147 | sorting keeps the tags distinct |
| Costs.CostByTag | dom/commands/costs.py:112-155 | a failed listing ends the command; the nested loops build exactly the tally of all droplets, and the report is the one the tally determines |
| Costs.TallyItems | dom/commands/costs.py:142-147 | the items are the first-seen tags with their total costs, distinct, and exactly the tags carried by some droplet |
| Costs.ByTagRowsCorrect | dom/commands/costs.py:142-148 | the table rows: every tag once, each at its total cost, in non-increasing cost order, equal costs in first-seen order |
| Costs.ByTagReportOf | dom/commands/costs.py:142-155 | an untagged row, when shown, carries a positive total (the rows themselves are stated by `ByTagRowsCorrect` and `ByTagUntaggedRow`) |
| Costs.ByTagUntaggedRow | dom/commands/costs.py:142-155 | "No tagged resources" exactly when no droplet has a tag; the untagged row appears exactly when some droplet has no tags, and shows their total |
| Tui.StatusColor | dom/tui/app.py:55-58 | active is green, off red, new yellow, anything else white |
| Tui.StatusMarkup | dom/tui/app.py:55-58 | the status text wrapped in opening and closing tags of its colour |
| Tui.GetIp | dom/tui/app.py:60-65 | "-" when no network has the type; otherwise the address of the first network of that type |
| Tui.GetIpFirstMatch | dom/tui/app.py:62-64 | when network `k` is the first of its type, its address is the one returned |
| Tui.SshCommand | dom/tui/app.py:70-73 | the app exits with `ssh root@<public ip>` exactly when a public address exists |
| Tui.SshTargetsFirstPublicAddress | dom/tui/app.py:70-73 | the SSH command targets the first public address |
| Tui.DetailButtonPressed | dom/tui/app.py:75-79 | the ssh button exits with the SSH command exactly when there is one; reboot only warns, naming the droplet |
| Tui.Fetch | dom/tui/app.py:127 | every record a view's listing returns belongs to that view |
| Tui.DropletStatusCell | dom/tui/app.py:131-132 | the status text, closed by `[/]`, opened green exactly when the status is "active" and red otherwise |
| Tui.RowOf | dom/tui/app.py:129-133 | each row has one cell per column of its view, with the id, IP, attached-to, TTL and rule-count cells as the load methods draw them |
| Tui.DrawRows | dom/tui/app.py:129-133 | the rows drawn are one row per record, in order |
| Tui.ResourceListScreen.constructor | dom/tui/app.py:93-97 | the screen starts on droplets with no records, an empty table and the droplets button primary |
| Tui.ResourceListScreen.Load | dom/tui/app.py:119-135 | switches the view and columns; a failed fetch keeps the old records, leaves the table empty and posts an error; a successful one replaces the records and draws one row each |
| Tui.ResourceListScreen.Mount | dom/tui/app.py:115-117 | exits with status 1 and changes nothing exactly when there is no token; otherwise loads the droplets view as `Load` does: a failed fetch keeps the records, empties the table and posts an error; a successful one replaces the records and draws one row each; button variants and pushed screens are unchanged |
| Tui.ResourceListScreen.Refresh | dom/tui/app.py:234-245 | reloads the current view, keeps it, and posts "Refreshed!" after any error |
| Tui.ResourceListScreen.NavButtonPressed | dom/tui/app.py:210-225 | exactly the pressed button is primary afterwards, and its view is loaded as `Load` does: records, table and notices change as for a failed or successful fetch; pushed screens are unchanged |
| Tui.ResourceListScreen.RowSelected | dom/tui/app.py:227-232 | a detail screen is pushed exactly when the droplets view is current, there are records and the row is in range; a row on screen opens the droplet it shows |
| Tui.SelectAfterLoad | dom/tui/app.py:227-232 | selecting a row of a freshly loaded droplet list opens the droplet at that position of the listing |
| Audit.SectionOf | dom/commands/audit.py:24-49 | a section is an error exactly when its call failed, "none found" exactly when the listing is empty, and one line per record otherwise |
| Audit.ShowSection | dom/commands/audit.py:24-49 | the section-drawing loop produces exactly that section |
| Audit.SummaryDropletRow | dom/commands/audit.py:35-44 | six cells: id, name, region, size, first IP, status |
| Audit.SummaryVolumeRow | dom/commands/audit.py:63-71 | the volume row's id and attached-to cells |
| Audit.DomainLine | dom/commands/audit.py:84 | a domain's line is the bullet and its name |
| Audit.FirewallLine | dom/commands/audit.py:96 | a firewall's line names it and ends with its droplet count |
| Audit.LoadBalancerLine | dom/commands/audit.py:108 | a load balancer's line names it and ends with its status |
| Audit.DatabaseRow | dom/commands/audit.py:126-133 | five cells: name, engine and version separated by a space, size, region, status |
| Audit.KubernetesRow | dom/commands/audit.py:152-160 | the nodes cell is the sum of the pools' node counts |
| Audit.KubernetesNodesColumn | dom/commands/audit.py:153 | a cluster without pools shows 0 nodes; one more pool adds its count |
| Audit.AppLine | dom/commands/audit.py:173 | an app without a live URL shows "no url" |
| Audit.AuditAll | dom/commands/audit.py:16-177 | each of the eight sections depends only on its own call, so a failure costs only its own section |
| Audit.TagParams | dom/commands/audit.py:194-196 | `tag_name` is sent exactly when a non-empty tag is given, and nothing else is sent |
| Audit.InRegionExact | dom/commands/audit.py:200-201 | the region filter keeps exactly the droplets of that region, in order |
| Audit.RegionSelected | dom/commands/audit.py:200-201 | no filtering without a non-empty region |
| Audit.DetailDropletRow | dom/commands/audit.py:219-233 | ten cells; the tags cell is "-" exactly when the comma-joined tags are empty or "-" |
| Audit.AuditDroplets | dom/commands/audit.py:187-236 | a failed listing ends the command; "No droplets found" exactly when nothing is left after the filters; otherwise one row per droplet and the total is their number |
| Audit.RulePeers | dom/commands/audit.py:294-295 | addresses when that key is present, even empty; else droplet ids when present; else "any" |
| Audit.MissingPeersMeansAny | dom/commands/audit.py:294-295 | a rule without a peers object reads as "any" |
| Audit.RuleLineOf | dom/commands/audit.py:293-296 | a rule line shows the rule's protocol, ports and peers |
| Audit.FirewallBlockOf | dom/commands/audit.py:285-305 | the droplet count, and one inbound and one outbound line per rule, in order |
| Audit.AuditFirewalls | dom/commands/audit.py:275-305 | a failed listing ends the command; "No firewalls found" exactly when there are none; otherwise one block per firewall, in order |
| Ansible.JoinPath | dom/commands/ans.py:69 | an absolute name replaces the directory; otherwise the name goes under it |
| Ansible.GetInventoryFile | dom/commands/ans.py:19-31 | the ini inventory when it exists, else the yml one, else exit 1 |
| Ansible.FindPlaybook | dom/commands/ans.py:69-79 | the playbook as named when it exists, else with `.yml` added when that exists, else none; a found playbook exists |
| Ansible.PlaybookNameWithExtension | dom/commands/ans.py:69-72 | a playbook is found under the same path whether named with or without `.yml` |
| Ansible.LookupsUnderAnsibleDir | dom/commands/ans.py:14-27 | every path the lookups produce lies under `ansible/`, unless the playbook name is absolute |
| Ansible.AsWrittenChildMissesRelativePaths | dom/commands/ans.py:38 | as written, a relative path is opened one `ansible/` deeper than where it was found |
| Ansible.AsWrittenPingMissesInventory | dom/commands/ans.py:56 | as written, the `ping` command with only `ansible/inventory/inventory.ini` hands `ansible` a path that does not exist |
| Ansible.ChildPath | dom/commands/ans.py:56 | the proposed correction (see Findings), used by no modelled command of the code: a path under `ansible/` is passed relative to it, any other path unchanged |
| Ansible.ChildPathResolves | dom/commands/ans.py:56 | with the correction, the child, started in `ansible/`, opens exactly the file that was found |
| Ansible.RunTool | dom/commands/ans.py:34-47 | the tool name before the arguments, run in `ansible/`; the child's status is returned |
| Ansible.AdHocArgs | dom/commands/ans.py:56 | each ad-hoc command's exact argument list, always starting `-i <inventory>` |
| Ansible.AdHocModules | dom/commands/ans.py:103-126 | ping, facts and shell ask for the modules ping, setup and shell; the shell command is one argument |
| Ansible.AnsAdHoc | dom/commands/ans.py:50-56 | exit 1 exactly when no inventory exists; otherwise one `ansible` run in `ansible/` with the found inventory path unchanged, which the child resolves to `ansible/` followed by that path, not the file found |
| Ansible.AnsAdHocCorrected | dom/commands/ans.py:56 | the corrected ad-hoc command: same exits, and the child opens exactly the inventory found |
| Ansible.PlayArgs | dom/commands/ans.py:81-85 | `-i <inventory> <playbook>`, then `--limit <host>` unless the host is "all", then `--check`; the list reads back as the request it came from |
| Ansible.AnsPlay | dom/commands/ans.py:60-87 | the inventory is looked up first; exit 1 exactly when it or the playbook is missing; otherwise one `ansible-playbook` run in `ansible/` whose arguments read back as the found paths unchanged; the child resolves the inventory, and a relative playbook, one `ansible/` deeper than the file found |
| Ansible.AnsPlayCorrected | dom/commands/ans.py:81 | the corrected play command: same exits, and the child opens exactly the inventory and playbook found |
| Ansible.Description | dom/commands/ans.py:146-150 | a description other than "-" is shorter than the first line it comes from |
| Ansible.DescriptionOfOther | dom/commands/ans.py:146-150 | a first line that is blank or not a comment once stripped is described as "-" |
| Ansible.DescriptionOfComment | dom/commands/ans.py:148-150 | a first line `# <text>` yields `<text>` |
| Ansible.DescriptionTrimmed | dom/commands/ans.py:148-150 | a description never begins or ends with whitespace |
| Ansible.AnsPlaybooks | dom/commands/ans.py:130-153 | "No playbooks found" exactly when the glob is empty; otherwise one row per playbook, in glob order, with its description |
| Terraform.RunTerraform | dom/commands/tf.py:17-22 | `terraform` before the arguments, in the given directory; the child's status is returned |
| Terraform.ApprovalArgs | dom/commands/tf.py:42-45 | the verb, then `-auto-approve` exactly when `--yes` is given |
| Terraform.TfChange | dom/commands/tf.py:37-56 | `terraform apply` or `terraform destroy` in `terraform/`, with `-auto-approve` exactly when `--yes` is given |
| Terraform.FixedArgs | dom/commands/tf.py:25-103 | the fixed commands never pass `-auto-approve` |
| Terraform.FixedArgsDistinct | dom/commands/tf.py:25-103 | each fixed command has its own subcommand, and none of them is apply or destroy |
| Terraform.TfFixed | dom/commands/tf.py:25-103 | a fixed command runs `terraform` with its arguments in `terraform/` |
| Terraform.ImportCommandsAppend | dom/commands/tf.py:73-75 | the commands of two consecutive parts of the script are the commands of each, in order |
| Terraform.ImportCommandsAreCommands | dom/commands/tf.py:74-75 | every command run is a non-empty, non-comment stripped line of the script |
| Terraform.CommandLinesRun | dom/commands/tf.py:74-77 | every non-empty, non-comment line of the script is run |
| Terraform.SkippedLine | dom/commands/tf.py:75 | a blank or comment line runs nothing |
| Terraform.ReplayLine | dom/commands/tf.py:74-79 | a command line adds one shell run of the stripped line in `terraform/`, and a warning exactly when it fails; a blank or comment line changes nothing |
| Terraform.ReplayLines | dom/commands/tf.py:72-79 | the loop runs exactly the script's command lines, in order, and counts one warning per failed run |
| Terraform.TfImport | dom/commands/tf.py:60-79 | exit 1 exactly when the script is missing; otherwise each command line runs through the shell in `terraform/`, in order; each failure is a warning and the rest still run |

## Left out

- The DigitalOcean HTTP API and how its JSON responses become records. Each listing is a parameter that either holds the records or failed. A record missing a key, which makes the Python code raise `KeyError` part-way through a loop, is not modelled: records are well-formed.
- Every command's initial `get_client()` call. It is modelled once, by `ApiClient.GetClient`. Only the UI's `Mount` goes through it; the commands start from their listings.
- `handle_api_error` is applied to no command in the code. `ApiClient.HandleApiError` models one decorated call.
- What is printed and how: Rich tables, colours, Textual widgets and layout, and the `:.2f` money formatting. The model keeps the rows, lines and notices that would be shown, not their rendering.
- Floating point: prices are integer cents. This is exact for the source's table prices and for 10 cents per GB. `price_monthly` is taken as a whole number of cents.
- `costs summary` and the other commands outside the modelled core: `audit domains`, `ans inventory` (which only prints the inventory file), `export`, `status`, `version`, and the CLI wiring in `dom/cli.py`.
- `dom/cli.py` mounts only the `audit`, `costs`, `cleanup` and `export` apps (dom/cli.py:17-20); the `ans` and `tf` apps are mounted nowhere in it. The model treats each of their command functions as invoked directly.
- The "Available playbooks" list that `ans play` prints before exiting when the playbook is missing. It is output only; the exit itself is modelled.
- Parsing timestamps. ISO-8601 dates are integer seconds, and the current time is a parameter of `CleanupSnapshots`.
- Path normalisation by `pathlib`: `.` segments and repeated or trailing slashes are not collapsed. `Ansible.JoinPath` and `Ansible.Resolve` join strings.
- What a shell does with an import-script line. `TfImport` records the line as the child's single argument; `status(k)` is the k-th line's exit status.
- The detail screen's `compose`, which only lays out fields, and the key bindings `d`, `v` and `f`. Those bindings call the same load methods that `ResourceListScreen.Load` models.
- Ansible.PlayArgs: `check` implies that the last argument is `--check`, not the other way round, because a host named `--check` also ends the list with `--check`. The round trip through `ParsePlayArgs` still pins down `check` exactly.

## Findings

| source | as written | input that shows it | evidently intended | confidence | as-written member | corrected member |
|---|---|---|---|---|---|---|
| dom/commands/ans.py:56 | the inventory is passed as the path found from the current directory, `ansible/inventory/inventory.ini`, to a child that runs with `./ansible` as its working directory | only `ansible/inventory/inventory.ini` exists: the `ping` command runs `ansible -i ansible/inventory/inventory.ini all -m ping` in `ansible/`, which opens `ansible/ansible/inventory/inventory.ini` | pass the path relative to `ansible/` (`ChildPath`), so the child opens the file that was found | high (not executed) | Ansible.AnsAdHoc | Ansible.AnsAdHocCorrected |
| dom/commands/ans.py:81 | the play command passes the found inventory and playbook paths unchanged to `ansible-playbook`, which runs in `./ansible` | `ansible/inventory/inventory.ini` and `ansible/playbooks/site.yml` exist: the child is asked for `ansible/ansible/inventory/inventory.ini` and `ansible/ansible/playbooks/site.yml` | pass both paths relative to `ansible/` (`ChildPath`) | high (not executed) | Ansible.AnsPlay | Ansible.AnsPlayCorrected |
