/**
 * `freeze` in src/utils/requirements.py: the `uv tree` commands it runs
 * and the pins it returns. The output of `uv tree` for a command line is
 * a parameter, `uvTree`; a failing command (`check=True`) and the log line
 * are not modelled.
 */
module UtilsRequirements {
  import opened Wrappers
  import UvTree

  datatype FreezeError = ValueError(message: string)

  const CannotSpecifyPackages := "Cannot specify packages when 'all' is True"

  /** `[f'--package={pkg}' for pkg in packages]`. */
  function PackageOpts(packages: seq<string>): seq<string> {
    seq(|packages|, i requires 0 <= i < |packages| => "--package=" + packages[i])
  }

  /** A `--package=` option is never one of the fixed flags. */
  lemma PackageOptIsNoFlag(p: string, flag: string)
    requires flag in {"--no-dedupe", "--all-groups", "--no-dev", "--no-group=local", "--offline"}
    ensures "--package=" + p != flag
  {
    assert ("--package=" + p)[2] == 'p';
  }

  /** The constraint flags of the second run. */
  function Constraints(dev: bool, local: bool): seq<string> {
    ["--no-dedupe"] + (if dev then [] else ["--no-dev"]) + (if local then [] else ["--no-group=local"])
  }

  /** The constraints start with `--no-dedupe`, drop dev dependencies iff not `dev` and the local group iff not `local`. */
  lemma ConstraintsFlags(dev: bool, local: bool)
    ensures var c := Constraints(dev, local);
      && |c| >= 1 && c[0] == "--no-dedupe"
      && ("--no-dev" in c <==> !dev)
      && ("--no-group=local" in c <==> !local)
  {
    var c := Constraints(dev, local);
    assert "--no-dedupe" != "--no-dev" && "--no-dedupe" != "--no-group=local" && "--no-dev" != "--no-group=local";
    assert forall f :: f in c <==> f == "--no-dedupe" || (!dev && f == "--no-dev") || (!local && f == "--no-group=local");
  }

  /** The first command: every group, over the selected packages. */
  function AvailableCommand(packages: seq<string>): seq<string> {
    ["uv", "--offline", "tree"] + PackageOpts(packages) + ["--no-dedupe", "--all-groups"]
  }

  /** The second command: the constraints, with the package options before and after them. */
  function SelectedCommand(packages: seq<string>, dev: bool, local: bool): seq<string> {
    ["uv", "--offline", "tree"] + PackageOpts(packages) + Constraints(dev, local) + PackageOpts(packages)
  }

  /**
   * `freeze(*packages, all=all, dev=dev, local=local)`. Packages together
   * with `all` are a ValueError and no packages without `all` return [];
   * otherwise two commands run, one over all groups (its pins are only
   * counted for the log) and one with the constraints, whose pins are
   * returned. The second command carries the `--package` options twice:
   * `cmd` was already extended with them and `package_opts` is appended
   * again.
   */
  method Freeze(packages: seq<string>, all: bool, dev: bool, local: bool, uvTree: seq<string> -> string)
    returns (r: Result<seq<string>, FreezeError>, commands: seq<seq<string>>)
    ensures all && packages != [] ==> r == Err(ValueError(CannotSpecifyPackages)) && commands == []
    ensures !all && packages == [] ==> r == Ok([]) && commands == []
    ensures all == (packages == []) ==>
      && commands == [AvailableCommand(packages), SelectedCommand(packages, dev, local)]
      && r == Ok(UvTree.Parsed(uvTree(commands[1]), all))
  {
    var cmd := ["uv", "--offline", "tree"];
    var packageOpts: seq<string>;
    if all {
      if packages != [] {
        return Err(ValueError(CannotSpecifyPackages)), [];
      }
      packageOpts := [];
      assert packageOpts == PackageOpts(packages) && cmd == ["uv", "--offline", "tree"] + packageOpts;
    } else {
      if packages == [] {
        return Ok([]), [];
      }
      packageOpts := PackageOpts(packages);
      cmd := cmd + PackageOpts(packages);
    }
    var available := cmd + ["--no-dedupe", "--all-groups"];
    assert available == AvailableCommand(packages);
    var availableDeps := UvTree.ParseUvTreeOutput(uvTree(available), true);

    var constraints := ["--no-dedupe"];
    if !dev {
      constraints := constraints + ["--no-dev"];
    }
    assert constraints == ["--no-dedupe"] + (if dev then [] else ["--no-dev"]);
    if !local {
      constraints := constraints + ["--no-group=local"];
    }
    assert constraints == Constraints(dev, local);
    var selected := cmd + constraints + packageOpts;
    assert selected == SelectedCommand(packages, dev, local);
    var selectedDeps := UvTree.ParseUvTreeOutput(uvTree(selected), all);
    r, commands := Ok(selectedDeps), [available, selected];
    assert commands[1] == selected;
  }

  /**
   * What the flags select: the second command drops dev dependencies
   * exactly when `dev` is off and the local group exactly when `local` is
   * off; only the first command asks for all groups.
   */
  lemma FreezeFlags(packages: seq<string>, dev: bool, local: bool)
    ensures var selected := SelectedCommand(packages, dev, local);
      && ("--no-dev" in selected <==> !dev)
      && ("--no-group=local" in selected <==> !local)
      && "--all-groups" !in selected
  {
    var opts := PackageOpts(packages);
    var selected := SelectedCommand(packages, dev, local);
    ConstraintsFlags(dev, local);
    forall i | 0 <= i < |opts|
      ensures opts[i] != "--no-dev" && opts[i] != "--no-group=local" && opts[i] != "--all-groups"
    {
      PackageOptIsNoFlag(packages[i], "--no-dev");
      PackageOptIsNoFlag(packages[i], "--no-group=local");
      PackageOptIsNoFlag(packages[i], "--all-groups");
    }
    assert forall f :: f in selected <==> f in ["uv", "--offline", "tree"] || f in opts || f in Constraints(dev, local);
  }

  /** With packages, each `--package=` option appears twice in the second command. */
  lemma PackageOptsRepeated(packages: seq<string>, dev: bool, local: bool, i: nat)
    requires i < |packages|
    ensures var selected := SelectedCommand(packages, dev, local);
      var c := |Constraints(dev, local)|;
      && selected[3 + i] == "--package=" + packages[i]
      && selected[3 + |packages| + c + i] == "--package=" + packages[i]
  {
  }
}
