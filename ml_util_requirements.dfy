/**
 * `freeze` in src/ml_util/requirements.py, the earlier variant: one
 * `uv tree` command, no `--offline`, no groups. Its
 * `parse_uv_tree_output` is the one UvTree models. The output of
 * `uv tree` for a command line is a parameter, `uvTree`.
 */
module MlUtilRequirements {
  import opened Wrappers
  import UvTree
  import UtilsRequirements

  /**
   * `freeze(*packages, all=all, dev=dev)`: the same ValueError and early
   * [] as the later variant; otherwise `uv tree`, the package options,
   * `--no-dev` unless `dev`, parsed without the first line when `all`.
   */
  method Freeze(packages: seq<string>, all: bool, dev: bool, uvTree: seq<string> -> string)
    returns (r: Result<seq<string>, UtilsRequirements.FreezeError>, command: Option<seq<string>>)
    ensures all && packages != [] ==>
      r == Err(UtilsRequirements.ValueError(UtilsRequirements.CannotSpecifyPackages)) && command == None
    ensures !all && packages == [] ==> r == Ok([]) && command == None
    ensures all == (packages == []) ==>
      && command == Some(["uv", "tree"] + UtilsRequirements.PackageOpts(packages) + (if dev then [] else ["--no-dev"]))
      && r == Ok(UvTree.Parsed(uvTree(command.value), all))
  {
    var cmd := ["uv", "tree"];
    if all {
      if packages != [] {
        return Err(UtilsRequirements.ValueError(UtilsRequirements.CannotSpecifyPackages)), None;
      }
      assert cmd == ["uv", "tree"] + UtilsRequirements.PackageOpts(packages);
    } else {
      if packages == [] {
        return Ok([]), None;
      }
      cmd := cmd + UtilsRequirements.PackageOpts(packages);
    }
    ghost var withPackages := cmd;
    if !dev {
      cmd := cmd + ["--no-dev"];
    }
    assert cmd == withPackages + (if dev then [] else ["--no-dev"]);
    var result := uvTree(cmd);
    var deps := UvTree.ParseUvTreeOutput(result, all);
    return Ok(deps), Some(cmd);
  }

  /** The one command drops dev dependencies exactly when `dev` is off. */
  lemma FreezeDevFlag(packages: seq<string>, dev: bool)
    ensures "--no-dev" in ["uv", "tree"] + UtilsRequirements.PackageOpts(packages) + (if dev then [] else ["--no-dev"]) <==> !dev
  {
    var opts := UtilsRequirements.PackageOpts(packages);
    forall i | 0 <= i < |opts| ensures opts[i] != "--no-dev" {
      UtilsRequirements.PackageOptIsNoFlag(packages[i], "--no-dev");
    }
    assert forall f :: f in ["uv", "tree"] + opts + (if dev then [] else ["--no-dev"]) <==>
      f in ["uv", "tree"] || f in opts || f in (if dev then [] else ["--no-dev"]);
  }
}
