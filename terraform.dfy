/** `dom tf`: the command lines handed to `terraform`, which runs in
    `./terraform`, and the replay of the generated import script, line by line. */
module Terraform {
  import opened Base

  const TerraformDir := "terraform"
  const ImportScript := "terraform/generated/import.sh"

  /** `run_terraform`: `terraform` before the arguments, run in `cwd` (the terraform
      directory unless a caller says otherwise); the child's exit status is
      returned. */
  method RunTerraform(args: seq<string>, cwd: string, status: int) returns (code: int, run: ChildRun)
    ensures run.argv == ["terraform"] + args && run.cwd == cwd && run.status == status
    ensures code == status
  {
    var cmd := ["terraform"] + args;
    run := ChildRun(cmd, cwd, status);
    code := run.status;
  }

  /** `apply` and `destroy`: the verb, then `-auto-approve` exactly when `--yes` is given. */
  method ApprovalArgs(verb: string, autoApprove: bool) returns (args: seq<string>)
    ensures |args| >= 1 && args[0] == verb
    ensures autoApprove ==> args == [verb, "-auto-approve"]
    ensures !autoApprove ==> args == [verb]
  {
    args := [verb];
    if autoApprove {
      args := args + ["-auto-approve"];
    }
  }

  /** The two commands that change infrastructure. */
  datatype ChangeCommand = Apply | Destroy

  function Verb(c: ChangeCommand): string {
    match c
    case Apply => "apply"
    case Destroy => "destroy"
  }

  /** `tf apply` / `tf destroy`: terraform itself asks for confirmation unless
      `--yes` is given. The child's status is not passed on. */
  method TfChange(c: ChangeCommand, autoApprove: bool, status: int) returns (run: ChildRun)
    ensures run.cwd == TerraformDir && run.status == status
    ensures run.argv == ["terraform", Verb(c)] + (if autoApprove then ["-auto-approve"] else [])
    ensures "-auto-approve" in run.argv <==> autoApprove
  {
    var args := ApprovalArgs(Verb(c), autoApprove);
    var _, r := RunTerraform(args, TerraformDir, status);
    run := r;
  }

  /** The commands whose arguments never vary. */
  datatype FixedCommand = Init | Plan | Output | StateList | Fmt | Validate

  function FixedArgs(c: FixedCommand): (args: seq<string>)
    ensures 1 <= |args| <= 2
    ensures "-auto-approve" !in args
  {
    match c
    case Init => ["init"]
    case Plan => ["plan"]
    case Output => ["output"]
    case StateList => ["state", "list"]
    case Fmt => ["fmt", "-recursive"]
    case Validate => ["validate"]
  }

  /** Each fixed command has its own subcommand, and none of them is `apply` or
      `destroy`: only those two can change infrastructure. */
  lemma FixedArgsDistinct(a: FixedCommand, b: FixedCommand)
    ensures FixedArgs(a)[0] == FixedArgs(b)[0] ==> a == b
    ensures FixedArgs(a)[0] !in {"apply", "destroy"}
  {
  }

  method TfFixed(c: FixedCommand, status: int) returns (run: ChildRun)
    ensures run == ChildRun(["terraform"] + FixedArgs(c), TerraformDir, status)
  {
    var _, r := RunTerraform(FixedArgs(c), TerraformDir, status);
    run := r;
  }

  // ---------------------------------------------------------------------------
  // `tf import`.

  /** A line of the script that is run: what is left after stripping, unless that
      is empty or a comment. */
  predicate IsCommand(line: string) {
    Strip(line) != "" && !StartsWith(Strip(line), "#")
  }

  /** The commands the script runs, in order: its command lines, stripped. */
  function ImportCommands(lines: seq<string>): (cmds: seq<string>)
    ensures |cmds| <= |lines|
  {
    if lines == [] then []
    else ImportCommands(lines[..|lines| - 1])
         + (if IsCommand(lines[|lines| - 1]) then [Strip(lines[|lines| - 1])] else [])
  }

  lemma {:induction false} ImportCommandsAppend(a: seq<string>, b: seq<string>)
    ensures ImportCommands(a + b) == ImportCommands(a) + ImportCommands(b)
    decreases |b|
  {
    if b == [] {
      assert a + b == a;
    } else {
      var b' := b[..|b| - 1];
      assert (a + b)[..|a + b| - 1] == a + b';
      ImportCommandsAppend(a, b');
    }
  }

  /** Every command run is a non-empty, non-comment stripped line of the script. */
  lemma {:induction false} ImportCommandsAreCommands(lines: seq<string>, c: string)
    requires c in ImportCommands(lines)
    ensures c != "" && !StartsWith(c, "#")
    ensures exists i :: 0 <= i < |lines| && IsCommand(lines[i]) && Strip(lines[i]) == c
  {
    var init := lines[..|lines| - 1];
    var last := lines[|lines| - 1];
    if c in ImportCommands(init) {
      ImportCommandsAreCommands(init, c);
      var i :| 0 <= i < |init| && IsCommand(init[i]) && Strip(init[i]) == c;
      assert lines[i] == init[i];
    } else {
      assert IsCommand(last) && c == Strip(last);
    }
  }

  /** Every non-empty, non-comment line of the script is run. */
  lemma {:induction false} CommandLinesRun(lines: seq<string>, i: nat)
    requires i < |lines| && IsCommand(lines[i])
    ensures Strip(lines[i]) in ImportCommands(lines)
  {
    var init := lines[..|lines| - 1];
    if i < |lines| - 1 {
      CommandLinesRun(init, i);
      assert init[i] == lines[i];
    }
  }

  /** One more line of the script adds its command, if it is one. */
  lemma ImportCommandsStep(lines: seq<string>, i: nat)
    requires i < |lines|
    ensures IsCommand(lines[i]) ==> ImportCommands(lines[..i + 1]) == ImportCommands(lines[..i]) + [Strip(lines[i])]
    ensures !IsCommand(lines[i]) ==> ImportCommands(lines[..i + 1]) == ImportCommands(lines[..i])
  {
    assert lines[..i + 1][..i] == lines[..i];
  }

  /** A blank or comment line runs nothing. */
  lemma SkippedLine(lines: seq<string>, line: string)
    requires !IsCommand(line)
    ensures ImportCommands(lines + [line]) == ImportCommands(lines)
  {
    assert (lines + [line])[..|lines|] == lines;
  }

  /** The runs of `cmds` in order, in the terraform directory, the k-th ending
      with `status(k)`. */
  function CommandRuns(cmds: seq<string>, status: nat -> int): (runs: seq<ChildRun>)
    ensures |runs| == |cmds|
  {
    if cmds == [] then []
    else CommandRuns(cmds[..|cmds| - 1], status) + [ChildRun([cmds[|cmds| - 1]], TerraformDir, status(|cmds| - 1))]
  }

  /** The k-th run is the k-th command, ending with `status(k)`. */
  lemma {:induction false} CommandRunsAt(cmds: seq<string>, status: nat -> int, k: nat)
    requires k < |cmds|
    ensures CommandRuns(cmds, status)[k] == ChildRun([cmds[k]], TerraformDir, status(k))
  {
    var init := cmds[..|cmds| - 1];
    if k < |init| {
      CommandRunsAt(init, status, k);
      assert init[k] == cmds[k];
    }
  }

  lemma CommandRunsSnoc(cmds: seq<string>, cmd: string, status: nat -> int)
    ensures CommandRuns(cmds + [cmd], status) == CommandRuns(cmds, status) + [ChildRun([cmd], TerraformDir, status(|cmds|))]
  {
    assert (cmds + [cmd])[..|cmds|] == cmds;
  }

  datatype ImportReport = ImportReport(runs: seq<ChildRun>, warnings: nat)

  /** The number of runs among the first `n` whose status is not zero. */
  function Failures(status: nat -> int, n: nat): nat {
    if n == 0 then 0 else Failures(status, n - 1) + (if status(n - 1) != 0 then 1 else 0)
  }

  /** One line of the script: stripped, and run when it is a command; a failed
      run adds a warning. */
  method ReplayLine(raw: string, runs: seq<ChildRun>, warnings: nat, status: nat -> int)
    returns (runs': seq<ChildRun>, warnings': nat)
    ensures IsCommand(raw) ==> runs' == runs + [ChildRun([Strip(raw)], TerraformDir, status(|runs|))]
    ensures IsCommand(raw) ==> warnings' == warnings + (if status(|runs|) != 0 then 1 else 0)
    ensures !IsCommand(raw) ==> runs' == runs && warnings' == warnings
  {
    runs', warnings' := runs, warnings;
    var line := Strip(raw);
    if line != "" && !StartsWith(line, "#") {
      var run := ChildRun([line], TerraformDir, status(|runs|));
      if run.status != 0 {
        warnings' := warnings' + 1;
      }
      runs' := runs' + [run];
    }
  }

  /** The loop over the script's lines: each command line runs, in order, and
      each failed run adds a warning. */
  method ReplayLines(lines: seq<string>, status: nat -> int) returns (runs: seq<ChildRun>, warnings: nat)
    ensures runs == CommandRuns(ImportCommands(lines), status)
    ensures warnings == Failures(status, |runs|)
  {
    runs, warnings := [], 0;
    for i := 0 to |lines|
      invariant runs == CommandRuns(ImportCommands(lines[..i]), status)
      invariant warnings == Failures(status, |runs|)
    {
      ImportCommandsStep(lines, i);
      if IsCommand(lines[i]) {
        CommandRunsSnoc(ImportCommands(lines[..i]), Strip(lines[i]), status);
      }
      runs, warnings := ReplayLine(lines[i], runs, warnings, status);
    }
    assert lines[..|lines|] == lines;
  }

  /** `tf import`: a missing script ends the command with status 1 and runs nothing.
      Otherwise each command line runs through the shell in the terraform directory,
      in order; the k-th command run ends with `status(k)`, a failure is reported as
      a warning, and the remaining lines still run. */
  method TfImport(fs: set<string>, lines: seq<string>, status: nat -> int) returns (r: Outcome<ImportReport>)
    ensures r.Done? || r == Exit(1)
    ensures r == Exit(1) <==> ImportScript !in fs
    ensures r.Done? ==> |r.value.runs| == |ImportCommands(lines)|
    ensures r.Done? ==> forall k :: 0 <= k < |r.value.runs| ==>
                          r.value.runs[k] == ChildRun([ImportCommands(lines)[k]], TerraformDir, status(k))
    ensures r.Done? ==> r.value.warnings == Failures(status, |r.value.runs|)
  {
    if ImportScript !in fs {
      return Exit(1);
    }
    var runs, warnings := ReplayLines(lines, status);
    forall k | 0 <= k < |runs|
      ensures runs[k] == ChildRun([ImportCommands(lines)[k]], TerraformDir, status(k))
    {
      CommandRunsAt(ImportCommands(lines), status, k);
    }
    r := Done(ImportReport(runs, warnings));
  }
}
