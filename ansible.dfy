/** `dom ans`: locating the inventory and a playbook under `./ansible`, and
    building the command lines of `ansible` and `ansible-playbook`, which run with
    `./ansible` as their working directory.

    The file system is the set of paths that exist, each written relative to the
    directory `dom` runs in (or absolute). */
module Ansible {
  import opened Base

  const AnsibleDir := "ansible"
  const InventoryDir := "ansible/inventory"
  const PlaybooksDir := "ansible/playbooks"
  const IniInventory := "ansible/inventory/inventory.ini"
  const YmlInventory := "ansible/inventory/inventory.yml"

  /** `dir / name` for a pathlib path: an absolute name replaces the directory, an
      empty one leaves it as it is. */
  function JoinPath(dir: string, name: string): (p: string)
    ensures StartsWith(name, "/") ==> p == name
    ensures !StartsWith(name, "/") && name != "" ==> p == dir + "/" + name
  {
    if StartsWith(name, "/") then name else if name == "" then dir else dir + "/" + name
  }

  /** The file a child process started in `cwd` opens when given path `p`. */
  function Resolve(cwd: string, p: string): string {
    if StartsWith(p, "/") then p else cwd + "/" + p
  }

  // ---------------------------------------------------------------------------
  // Lookups.

  /** `get_inventory_file`: the ini inventory when it exists, else the yml one,
      else an exit with status 1. */
  function GetInventoryFile(fs: set<string>): (r: Outcome<string>)
    ensures r.Done? || r == Exit(1)
    ensures r.Done? <==> IniInventory in fs || YmlInventory in fs
    ensures IniInventory in fs ==> r == Done(IniInventory)
    ensures IniInventory !in fs && YmlInventory in fs ==> r == Done(YmlInventory)
  {
    if IniInventory in fs then Done(IniInventory)
    else if YmlInventory in fs then Done(YmlInventory)
    else Exit(1)
  }

  /** The playbook `ans play <name>` runs: `playbooks/<name>` when it exists, else
      `playbooks/<name>.yml` when that exists, else none. */
  function FindPlaybook(fs: set<string>, name: string): (r: Option<string>)
    ensures r.Some? ==> r.value in fs
    ensures JoinPath(PlaybooksDir, name) in fs ==> r == Some(JoinPath(PlaybooksDir, name))
    ensures JoinPath(PlaybooksDir, name) !in fs ==>
              r == (if JoinPath(PlaybooksDir, name + ".yml") in fs then Some(JoinPath(PlaybooksDir, name + ".yml")) else None)
  {
    var exact := JoinPath(PlaybooksDir, name);
    if exact in fs then Some(exact)
    else
      var withYml := JoinPath(PlaybooksDir, name + ".yml");
      if withYml in fs then Some(withYml) else None
  }

  /** A name given with its extension is found as given, so the `.yml` is not added twice. */
  lemma PlaybookNameWithExtension(fs: set<string>, stem: string)
    requires stem != "" && !StartsWith(stem, "/")
    requires PlaybooksDir + "/" + stem !in fs
    requires PlaybooksDir + "/" + stem + ".yml" in fs
    ensures FindPlaybook(fs, stem) == Some(PlaybooksDir + "/" + stem + ".yml")
    ensures FindPlaybook(fs, stem + ".yml") == Some(PlaybooksDir + "/" + stem + ".yml")
  {
    assert !StartsWith(stem + ".yml", "/") by {
      assert (stem + ".yml")[0] == stem[0];
    }
    assert JoinPath(PlaybooksDir, stem + ".yml") == PlaybooksDir + "/" + stem + ".yml";
  }

  /** `p` names something inside the ansible directory, written from outside it. */
  predicate UnderAnsibleDir(p: string) {
    StartsWith(p, AnsibleDir + "/") && !StartsWith(p[|AnsibleDir + "/"|..], "/")
  }

  /** Every path the lookups produce lies under the ansible directory, or is
      absolute. */
  lemma LookupsUnderAnsibleDir(fs: set<string>, name: string)
    ensures GetInventoryFile(fs).Done? ==> UnderAnsibleDir(GetInventoryFile(fs).value)
    ensures FindPlaybook(fs, name).Some? ==>
              UnderAnsibleDir(FindPlaybook(fs, name).value) || StartsWith(FindPlaybook(fs, name).value, "/")
  {
    InventoriesUnderAnsibleDir();
    if !StartsWith(name, "/") {
      PlaybookPathUnder(name);
    }
    PlaybookPathUnder(name + ".yml");
  }

  lemma UnderAnsibleDirPrefixed(rest: string)
    requires rest != [] && rest[0] != '/'
    ensures UnderAnsibleDir(AnsibleDir + "/" + rest)
  {
    var p := AnsibleDir + "/" + rest;
    assert p[..|AnsibleDir + "/"|] == AnsibleDir + "/";
    assert p[|AnsibleDir + "/"|..] == rest;
  }

  lemma InventoriesUnderAnsibleDir()
    ensures UnderAnsibleDir(IniInventory) && UnderAnsibleDir(YmlInventory)
  {
    IniUnderAnsibleDir();
    YmlUnderAnsibleDir();
  }

  lemma IniUnderAnsibleDir()
    ensures UnderAnsibleDir(IniInventory)
  {
    assert IniInventory[..|AnsibleDir + "/"|] == AnsibleDir + "/";
    assert IniInventory[|AnsibleDir + "/"|..][0] == 'i';
  }

  lemma YmlUnderAnsibleDir()
    ensures UnderAnsibleDir(YmlInventory)
  {
    assert YmlInventory[..|AnsibleDir + "/"|] == AnsibleDir + "/";
    assert YmlInventory[|AnsibleDir + "/"|..][0] == 'i';
  }

  /** A playbook looked up by a relative name lies under the ansible directory. */
  lemma PlaybookPathUnder(name: string)
    ensures !StartsWith(name, "/") ==> UnderAnsibleDir(JoinPath(PlaybooksDir, name))
  {
    if !StartsWith(name, "/") {
      if name == "" {
        UnderAnsibleDirPrefixed("playbooks");
        assert PlaybooksDir == AnsibleDir + "/" + "playbooks";
      } else {
        UnderAnsibleDirPrefixed("playbooks/" + name);
        assert PlaybooksDir + "/" + name == AnsibleDir + "/" + ("playbooks/" + name);
      }
    }
  }

  // ---------------------------------------------------------------------------
  // The working-directory mismatch.

  /** The correction of the mismatch described below: pass the found path made
      relative to the ansible directory, which is where the child runs. */
  function ChildPath(p: string): (r: string)
    ensures StartsWith(p, AnsibleDir + "/") ==> r == p[|AnsibleDir + "/"|..]
    ensures !StartsWith(p, AnsibleDir + "/") ==> r == p
  {
    if StartsWith(p, AnsibleDir + "/") then p[|AnsibleDir + "/"|..] else p
  }

  /** With the correction, the child opens exactly the file that was found. */
  lemma ChildPathResolves(p: string)
    requires UnderAnsibleDir(p) || StartsWith(p, "/")
    ensures Resolve(AnsibleDir, ChildPath(p)) == p
  {
    if StartsWith(p, AnsibleDir + "/") {
      var q := p[|AnsibleDir + "/"|..];
      assert p[0] == p[..|AnsibleDir + "/"|][0] == 'a';
      assert ChildPath(p) == q && !StartsWith(q, "/");
      assert p == p[..|AnsibleDir + "/"|] + q;
      assert Resolve(AnsibleDir, q) == AnsibleDir + "/" + q;
    }
  }

  /** As written, the commands pass the found path unchanged (`str(inventory)`),
      though the child runs inside the ansible directory: a relative path is then
      looked up one `ansible/` deeper than where it was found. */
  function ChildPathAsWritten(p: string): string {
    p
  }

  lemma AsWrittenChildMissesRelativePaths(p: string)
    requires !StartsWith(p, "/")
    ensures Resolve(AnsibleDir, ChildPathAsWritten(p)) == AnsibleDir + "/" + p
    ensures Resolve(AnsibleDir, ChildPathAsWritten(p)) != p
  {
    assert Resolve(AnsibleDir, p) == AnsibleDir + "/" + p;
    assert |Resolve(AnsibleDir, p)| > |p|;
  }

  /** With only `ansible/inventory/inventory.ini` on disk, the `ping` command finds the
      inventory and hands `ansible` a path that does not exist from the child's
      working directory. */
  lemma AsWrittenPingMissesInventory()
    ensures GetInventoryFile({IniInventory}) == Done(IniInventory)
    ensures Resolve(AnsibleDir, ChildPathAsWritten(IniInventory)) == AnsibleDir + "/" + IniInventory
    ensures Resolve(AnsibleDir, ChildPathAsWritten(IniInventory)) !in {IniInventory}
  {
    assert IniInventory[0] == 'a';
    AsWrittenChildMissesRelativePaths(IniInventory);
  }

  // ---------------------------------------------------------------------------
  // Running the tools.

  /** `run_ansible` / `run_ansible_playbook`: the tool's name before the arguments,
      run in the ansible directory; the child's exit status is returned. */
  method RunTool(tool: string, args: seq<string>, status: int) returns (code: int, run: ChildRun)
    ensures run.argv == [tool] + args && run.cwd == AnsibleDir && run.status == status
    ensures code == status
  {
    var cmd := [tool] + args;
    run := ChildRun(cmd, AnsibleDir, status);
    code := run.status;
  }

  /** The ad-hoc commands; `host` is the host pattern, `cmd` the shell command. */
  datatype AdHoc = Ping(host: string) | ListHosts | Facts(host: string) | Shell(cmd: string, host: string)

  function AdHocArgs(c: AdHoc, inventory: string): (args: seq<string>)
    ensures |args| >= 4 && args[..2] == ["-i", inventory]
    ensures c.Ping? ==> args == ["-i", inventory, c.host, "-m", "ping"]
    ensures c.ListHosts? ==> args == ["-i", inventory, "all", "--list-hosts"]
    ensures c.Facts? ==> args == ["-i", inventory, c.host, "-m", "setup"]
    ensures c.Shell? ==> args == ["-i", inventory, c.host, "-m", "shell", "-a", c.cmd]
  {
    match c
    case Ping(host) => ["-i", inventory, host, "-m", "ping"]
    case ListHosts => ["-i", inventory, "all", "--list-hosts"]
    case Facts(host) => ["-i", inventory, host, "-m", "setup"]
    case Shell(cmd, host) => ["-i", inventory, host, "-m", "shell", "-a", cmd]
  }

  /** The module an ad-hoc command asks for, read back from its arguments: each
      command asks for a different one, and the shell command is handed over
      whole as a single argument. */
  lemma AdHocModules(inventory: string, host: string, cmd: string)
    ensures AdHocArgs(Ping(host), inventory)[4] == "ping"
    ensures AdHocArgs(Facts(host), inventory)[4] == "setup"
    ensures AdHocArgs(Shell(cmd, host), inventory)[4] == "shell"
    ensures AdHocArgs(Shell(cmd, host), inventory)[6] == cmd
    ensures AdHocArgs(ListHosts, inventory)[3] == "--list-hosts"
  {
  }

  /** The `ping`, `list`, `facts` and `shell` commands: the inventory is required;
      the child's exit status is not passed on, so the command ends normally once
      the child has run. The inventory is passed as it was found, relative to the
      directory `dom` runs in, while the child runs inside the ansible directory,
      so the child looks for it one `ansible/` deeper. */
  method AnsAdHoc(fs: set<string>, c: AdHoc, status: int) returns (r: Outcome<ChildRun>)
    ensures r.Done? || r == Exit(1)
    ensures r == Exit(1) <==> GetInventoryFile(fs).Exit?
    ensures r.Done? ==> r.value == ChildRun(["ansible"] + AdHocArgs(c, GetInventoryFile(fs).value), AnsibleDir, status)
    ensures r.Done? ==>
              && Resolve(AnsibleDir, r.value.argv[2]) == AnsibleDir + "/" + GetInventoryFile(fs).value
              && Resolve(AnsibleDir, r.value.argv[2]) != GetInventoryFile(fs).value
  {
    var inventory := GetInventoryFile(fs);
    if inventory.Exit? {
      return Exit(1);
    }
    InventoryRelative(fs);
    AsWrittenChildMissesRelativePaths(inventory.value);
    var _, run := RunTool("ansible", AdHocArgs(c, ChildPathAsWritten(inventory.value)), status);
    r := Done(run);
  }

  /** A found inventory is a relative path. */
  lemma InventoryRelative(fs: set<string>)
    ensures GetInventoryFile(fs).Done? ==> !StartsWith(GetInventoryFile(fs).value, "/")
  {
    assert IniInventory[0] == 'a' && YmlInventory[0] == 'a';
  }

  /** The ad-hoc commands with the correction: the child opens exactly the
      inventory that was found. */
  method AnsAdHocCorrected(fs: set<string>, c: AdHoc, status: int) returns (r: Outcome<ChildRun>)
    ensures r.Done? || r == Exit(1)
    ensures r == Exit(1) <==> GetInventoryFile(fs).Exit?
    ensures r.Done? ==> r.value == ChildRun(["ansible"] + AdHocArgs(c, ChildPath(GetInventoryFile(fs).value)), AnsibleDir, status)
    ensures r.Done? ==> Resolve(AnsibleDir, r.value.argv[2]) == GetInventoryFile(fs).value
  {
    var inventory := GetInventoryFile(fs);
    if inventory.Exit? {
      return Exit(1);
    }
    InventoriesUnderAnsibleDir();
    ChildPathResolves(inventory.value);
    var _, run := RunTool("ansible", AdHocArgs(c, ChildPath(inventory.value)), status);
    r := Done(run);
  }

  /** The arguments of `ansible-playbook`, as `ans play` reads its options. */
  datatype PlayRequest = PlayRequest(inventory: string, playbook: string, host: string, check: bool)

  /** Reads a playbook command line back: inventory and playbook at their fixed
      places, then an optional `--limit <host>` (the host is "all" without one),
      then an optional `--check`. */
  function ParsePlayArgs(args: seq<string>): Option<PlayRequest> {
    if |args| < 3 || args[0] != "-i" then None
    else
      var limited := |args| >= 5 && args[3] == "--limit";
      var host := if limited then args[4] else "all";
      var rest := if limited then args[5..] else args[3..];
      if rest == [] then Some(PlayRequest(args[1], args[2], host, false))
      else if rest == ["--check"] then Some(PlayRequest(args[1], args[2], host, true))
      else None
  }

  /** `ans play`'s argument list: `-i <inventory> <playbook>`, then `--limit <host>`
      unless the host is "all", then `--check` when asked; reading it back gives
      the request it was built from. */
  method PlayArgs(inventory: string, playbook: string, host: string, check: bool) returns (args: seq<string>)
    ensures |args| >= 3 && args[..3] == ["-i", inventory, playbook]
    ensures |args| == 3 + (if host != "all" then 2 else 0) + (if check then 1 else 0)
    ensures host != "all" ==> args[3..5] == ["--limit", host]
    ensures check ==> args[|args| - 1] == "--check"
    ensures ParsePlayArgs(args) == Some(PlayRequest(inventory, playbook, host, check))
  {
    args := ["-i", inventory, playbook];
    if host != "all" {
      args := args + ["--limit", host];
    }
    if check {
      args := args + ["--check"];
    }
    if host != "all" {
      assert args[5..] == (if check then ["--check"] else []);
    } else {
      assert args[3..] == (if check then ["--check"] else []);
    }
  }

  /** The `play` command: the inventory is resolved first, so a missing inventory
      ends the command before the playbook is looked up; a playbook found under
      neither name also ends it with status 1 and nothing is run. Both paths are
      passed as they were found, so the child, running inside the ansible
      directory, looks for each relative one one `ansible/` deeper. */
  method AnsPlay(fs: set<string>, playbook: string, host: string, check: bool, status: int)
    returns (r: Outcome<ChildRun>)
    ensures r.Done? || r == Exit(1)
    ensures r == Exit(1) <==> GetInventoryFile(fs).Exit? || FindPlaybook(fs, playbook).None?
    ensures r.Done? ==>
              && |r.value.argv| >= 4 && r.value.argv[0] == "ansible-playbook"
              && r.value.cwd == AnsibleDir && r.value.status == status
              && ParsePlayArgs(r.value.argv[1..]) == Some(PlayRequest(
                   GetInventoryFile(fs).value, FindPlaybook(fs, playbook).value, host, check))
    // The child misses the inventory, and the playbook unless it was named by an
    // absolute path.
    ensures r.Done? ==>
              && |r.value.argv| >= 4
              && Resolve(AnsibleDir, r.value.argv[2]) == AnsibleDir + "/" + GetInventoryFile(fs).value
              && Resolve(AnsibleDir, r.value.argv[2]) != GetInventoryFile(fs).value
    ensures r.Done? && !StartsWith(FindPlaybook(fs, playbook).value, "/") ==>
              && |r.value.argv| >= 4
              && Resolve(AnsibleDir, r.value.argv[3]) == AnsibleDir + "/" + FindPlaybook(fs, playbook).value
              && Resolve(AnsibleDir, r.value.argv[3]) != FindPlaybook(fs, playbook).value
  {
    var inventory := GetInventoryFile(fs);
    if inventory.Exit? {
      return Exit(1);
    }
    var found := FindPlaybook(fs, playbook);
    if found.None? {
      return Exit(1);
    }
    InventoryRelative(fs);
    AsWrittenChildMissesRelativePaths(inventory.value);
    if !StartsWith(found.value, "/") {
      AsWrittenChildMissesRelativePaths(found.value);
    }
    var args := PlayArgs(ChildPathAsWritten(inventory.value), ChildPathAsWritten(found.value), host, check);
    var _, run := RunTool("ansible-playbook", args, status);
    assert run.argv[1..] == args;
    r := Done(run);
  }

  /** The `play` command with the correction: the child opens exactly the inventory
      and playbook that were found. */
  method AnsPlayCorrected(fs: set<string>, playbook: string, host: string, check: bool, status: int)
    returns (r: Outcome<ChildRun>)
    ensures r.Done? || r == Exit(1)
    ensures r == Exit(1) <==> GetInventoryFile(fs).Exit? || FindPlaybook(fs, playbook).None?
    ensures r.Done? ==>
              && |r.value.argv| >= 4 && r.value.argv[0] == "ansible-playbook"
              && r.value.cwd == AnsibleDir && r.value.status == status
              && ParsePlayArgs(r.value.argv[1..]) == Some(PlayRequest(
                   ChildPath(GetInventoryFile(fs).value), ChildPath(FindPlaybook(fs, playbook).value), host, check))
    ensures r.Done? ==>
              && |r.value.argv| >= 4
              && Resolve(AnsibleDir, r.value.argv[2]) == GetInventoryFile(fs).value
              && Resolve(AnsibleDir, r.value.argv[3]) == FindPlaybook(fs, playbook).value
  {
    var inventory := GetInventoryFile(fs);
    if inventory.Exit? {
      return Exit(1);
    }
    var found := FindPlaybook(fs, playbook);
    if found.None? {
      return Exit(1);
    }
    LookupsUnderAnsibleDir(fs, playbook);
    ChildPathResolves(inventory.value);
    ChildPathResolves(found.value);
    var args := PlayArgs(ChildPath(inventory.value), ChildPath(found.value), host, check);
    var _, run := RunTool("ansible-playbook", args, status);
    assert run.argv[1..] == args;
    r := Done(run);
  }

  // ---------------------------------------------------------------------------
  // `ans playbooks`.

  /** A playbook's description: its stripped first line without the leading "#",
      stripped again, when that line is a comment; "-" otherwise. */
  function Description(firstLine: string): (desc: string)
    ensures desc == "-" || |desc| < |firstLine|
  {
    var line := Strip(firstLine);
    if StartsWith(line, "#") then Strip(line[1..]) else "-"
  }

  /** Stripping `# <text>\n` removes only the newline. */
  lemma StripCommentLine(text: string)
    requires text != [] && !IsSpace(text[|text| - 1])
    ensures Strip("# " + text + "\n") == "# " + text
  {
    var line := "# " + text;
    var raw := line + "\n";
    assert raw == "# " + text + "\n";
    assert raw[0] == '#';
    StripLeftOfStripped(raw);
    assert raw[..|raw| - 1] == line && IsSpace(raw[|raw| - 1]);
    assert StripRight(raw) == StripRight(line);
    assert line[|line| - 1] == text[|text| - 1];
    assert StripRight(line) == line;
  }

  /** Stripping ` <text>` removes only the leading space. */
  lemma StripSpacedText(text: string)
    requires text != [] && !IsSpace(text[0]) && !IsSpace(text[|text| - 1])
    ensures Strip(" " + text) == text
  {
    assert (" " + text)[1..] == text;
    StripLeftOfStripped(text);
  }

  /** A first line `# <text>` describes the playbook as `<text>`, when the text
      has no surrounding whitespace of its own. */
  lemma DescriptionOfComment(text: string)
    requires text != [] && !IsSpace(text[0]) && !IsSpace(text[|text| - 1])
    ensures Description("# " + text + "\n") == text
  {
    var line := "# " + text;
    StripCommentLine(text);
    CommentMarker(text);
    assert Description(line + "\n") == Strip(line[1..]);
    StripSpacedText(text);
  }

  /** `# <text>` starts with the comment marker, and dropping it leaves ` <text>`. */
  lemma CommentMarker(text: string)
    ensures StartsWith("# " + text, "#")
    ensures ("# " + text)[1..] == " " + text
  {
    var line := "# " + text;
    assert line[..1] == "#";
  }

  /** A first line that is not a comment once stripped, a blank one included, is
      described as "-". */
  lemma DescriptionOfOther(firstLine: string)
    requires Strip(firstLine) == [] || Strip(firstLine)[0] != '#'
    ensures Description(firstLine) == "-"
  {
    var line := Strip(firstLine);
    if line != [] {
      assert line[..1][0] != '#';
    }
  }

  /** A description is never padded with whitespace. */
  lemma DescriptionTrimmed(firstLine: string)
    ensures Description(firstLine) == [] || (!IsSpace(Description(firstLine)[0])
                                            && !IsSpace(Description(firstLine)[|Description(firstLine)| - 1]))
  {
    var line := Strip(firstLine);
    if StartsWith(line, "#") {
      StripTrimmed(line[1..]);
    }
  }

  /** A playbook file found by the `*.yml` glob: its name and its first line. */
  datatype PlaybookFile = PlaybookFile(name: string, firstLine: string)

  datatype PlaybooksReport = NoPlaybooks | PlaybookTable(rows: seq<(string, string)>)

  /** A playbook's row in the table: its name and its description. */
  function PlaybookRow(f: PlaybookFile): (string, string) {
    (f.name, Description(f.firstLine))
  }

  /** `ans playbooks`: "No playbooks found", or one row per playbook in glob
      order, pairing its name with its description. */
  method AnsPlaybooks(files: seq<PlaybookFile>) returns (r: PlaybooksReport)
    ensures r.NoPlaybooks? <==> files == []
    ensures r.PlaybookTable? ==> |r.rows| == |files|
    ensures r.PlaybookTable? ==> forall i :: 0 <= i < |files| ==> r.rows[i] == (files[i].name, Description(files[i].firstLine))
  {
    if files == [] {
      return NoPlaybooks;
    }
    var rows := [];
    for i := 0 to |files|
      invariant rows == Map(PlaybookRow, files[..i])
    {
      MapStep(PlaybookRow, files, i);
      var desc := Description(files[i].firstLine);
      rows := rows + [(files[i].name, desc)];
    }
    assert files[..|files|] == files;
    r := PlaybookTable(rows);
  }
}
