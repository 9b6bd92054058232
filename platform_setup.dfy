/**
 * `PlatformSetup` of src/platform_setup.py: the data-path defaults it writes into the process
 * environment, the table that picks a setup routine per environment, the list of packages it
 * asks pip to install, and the success flag of `run`.
 * `os.environ` is an object holding a map; the installed-package index, the setup routines'
 * own failures and the common steps' failures are inputs.
 */
module PlatformSetup {
  import opened Wrappers
  import opened Seqs
  import opened Text

  /** The process environment, `os.environ`. */
  class OsEnviron {
    var vars: map<string, string>

    constructor (vars: map<string, string>)
      ensures this.vars == vars
    {
      this.vars := vars;
    }
  }

  /** `os.environ` after the three set-if-absent assignments of `__init__` (paths made absolute against `cwd`). */
  function WithPathDefaults(vars: map<string, string>, cwd: string): map<string, string>
  {
    var v1 := if "MODEL_CACHE" in vars then vars else vars["MODEL_CACHE" := JoinPath(cwd, "assets/models")];
    var v2 := if "LORA_CACHE" in v1 then v1 else v1["LORA_CACHE" := JoinPath(cwd, "assets/loras")];
    if "OUTPUT_DIR" in v2 then v2 else v2["OUTPUT_DIR" := JoinPath(cwd, "assets/outputs")]
  }

  /** The defaults only fill gaps: existing variables keep their values, absent path variables get theirs. */
  lemma PathDefaultsOnlyFillGaps(vars: map<string, string>, cwd: string)
    ensures var env := WithPathDefaults(vars, cwd);
      && env.Keys == vars.Keys + {"MODEL_CACHE", "LORA_CACHE", "OUTPUT_DIR"}
      && (forall k :: k in vars ==> env[k] == vars[k])
      && ("MODEL_CACHE" !in vars ==> env["MODEL_CACHE"] == JoinPath(cwd, "assets/models"))
      && ("LORA_CACHE" !in vars ==> env["LORA_CACHE"] == JoinPath(cwd, "assets/loras"))
      && ("OUTPUT_DIR" !in vars ==> env["OUTPUT_DIR"] == JoinPath(cwd, "assets/outputs"))
  {
  }

  /** Applying the defaults twice changes nothing more. */
  lemma PathDefaultsIdempotent(vars: map<string, string>, cwd: string, cwd2: string)
    ensures WithPathDefaults(WithPathDefaults(vars, cwd), cwd2) == WithPathDefaults(vars, cwd)
  {
  }

  /** The setup routines registered in `run`, and the fallback. */
  datatype SetupMethod =
    | SetupColab | SetupKaggle | SetupPaperspace | SetupVast | SetupLightning
    | SetupRunpod | SetupDocker | SetupJupyter | SetupLocal | SetupGeneric

  const SetupMethods: map<string, SetupMethod> := map[
    "colab" := SetupColab, "kaggle" := SetupKaggle, "paperspace" := SetupPaperspace,
    "vast" := SetupVast, "lightning" := SetupLightning, "runpod" := SetupRunpod,
    "docker" := SetupDocker, "jupyter" := SetupJupyter, "local" := SetupLocal
  ]

  /** `setup_methods.get(self.environment, self._setup_generic)`. */
  function Dispatch(environment: string): SetupMethod
  {
    if environment in SetupMethods then SetupMethods[environment] else SetupGeneric
  }

  /** The environment name a registered routine is filed under. */
  function EnvironmentOf(m: SetupMethod): string
  {
    match m
    case SetupColab => "colab"
    case SetupKaggle => "kaggle"
    case SetupPaperspace => "paperspace"
    case SetupVast => "vast"
    case SetupLightning => "lightning"
    case SetupRunpod => "runpod"
    case SetupDocker => "docker"
    case SetupJupyter => "jupyter"
    case SetupLocal => "local"
    case SetupGeneric => "generic"
  }

  /** Each registered routine is reached from exactly one name; every other name goes to the generic routine. */
  lemma DispatchInverse(environment: string, m: SetupMethod)
    ensures m != SetupGeneric ==> Dispatch(EnvironmentOf(m)) == m
    ensures Dispatch(environment) != SetupGeneric ==> EnvironmentOf(Dispatch(environment)) == environment
    ensures Dispatch(environment) == SetupGeneric <==> environment !in SetupMethods
  {
  }

  /** `required_packages`, group by group in the dictionary's order. */
  const RequiredPackages: seq<(string, seq<string>)> := [
    ("base", ["torch>=2.1.0", "torchvision>=0.16.0", "gradio>=4.11.0",
              "diffusers>=0.24.0", "transformers>=4.37.0", "accelerate>=0.25.0",
              "safetensors", "einops", "huggingface-hub", "PyYAML",
              "psutil", "GPUtil", "tqdm"]),
    ("video", ["imageio-ffmpeg", "opencv-python-headless"]),
    ("optimization", ["bitsandbytes"]),
    ("notebook", ["ipywidgets"])
  ]

  /** The groups' requirement strings one after another. */
  function Flatten(groups: seq<(string, seq<string>)>): seq<string>
  {
    if groups == [] then [] else groups[0].1 + Flatten(groups[1..])
  }

  /**
   * The package name of a requirement: the text before `>=`, stripped, or the whole string stripped.
   * A second `>=` makes the two-name unpacking of `req.split('>=')` raise.
   */
  function PackageName(req: string): Result<string, string>
  {
    if Contains(req, ">=") then
      var parts := Split(req, ">=");
      if |parts| == 2 then Success(Strip(parts[0])) else Failure(req)
    else Success(Strip(req))
  }

  lemma PackageNameIsPrefix(req: string)
    ensures PackageName(req).Success? && Contains(req, ">=") ==>
      PackageName(req).value == Strip(req[..IndexOf(req, ">=").value])
    ensures !Contains(req, ">=") ==> PackageName(req) == Success(Strip(req))
  {
  }

  /** Every requirement's name can be parsed. */
  ghost predicate AllParse(reqs: seq<string>)
  {
    forall i :: 0 <= i < |reqs| ==> PackageName(reqs[i]).Success?
  }

  /** A requirement goes to pip: its name parses and is not a key of the installed-package index. */
  predicate Missing(req: string, installed: set<string>)
  {
    PackageName(req).Success? && PackageName(req).value !in installed
  }

  /** The requirements, in order, whose parsed name is not a key of the installed-package index. */
  function ToInstall(reqs: seq<string>, installed: set<string>): seq<string>
  {
    if reqs == [] then []
    else (if Missing(reqs[0], installed) then [reqs[0]] else []) + ToInstall(reqs[1..], installed)
  }

  lemma {:induction false} ToInstallMembership(reqs: seq<string>, installed: set<string>, req: string)
    ensures req in ToInstall(reqs, installed) <==>
      req in reqs && PackageName(req).Success? && PackageName(req).value !in installed
  {
    if reqs != [] {
      ToInstallMembership(reqs[1..], installed, req);
      assert reqs == [reqs[0]] + reqs[1..];
    }
  }

  /** Installation keeps the order of the requirement list; versions are never compared. */
  lemma {:induction false} ToInstallKeepsOrder(reqs: seq<string>, installed: set<string>)
    ensures Subsequence(ToInstall(reqs, installed), reqs)
  {
    if reqs != [] {
      ToInstallKeepsOrder(reqs[1..], installed);
      var rest := ToInstall(reqs[1..], installed);
      if ToInstall(reqs, installed) == [reqs[0]] + rest {
        assert ToInstall(reqs, installed)[1..] == rest;
      } else {
        assert ToInstall(reqs, installed) == rest;
        SubsequenceOfTail(rest, reqs[1..], reqs[0]);
        assert [reqs[0]] + reqs[1..] == reqs;
      }
    }
  }

  /** `c` does not occur in `s`, checked character by character. */
  predicate NoChar(s: string, c: char)
    decreases |s|
  {
    s == [] || (s[0] != c && NoChar(s[1..], c))
  }

  lemma {:induction false} NoCharAt(s: string, c: char, i: nat)
    requires NoChar(s, c) && i < |s|
    ensures s[i] != c
    decreases i
  {
    if i > 0 {
      NoCharAt(s[1..], c, i - 1);
    }
  }

  /** A string without `>` contains no `>=`. */
  lemma NoVersionConstraint(s: string)
    requires NoChar(s, '>')
    ensures !Contains(s, ">=")
  {
    forall j | 0 <= j && j + 2 <= |s|
      ensures !OccursAt(s, ">=", j)
    {
      NoCharAt(s, '>', j);
      assert s[j..j + 2][0] == s[j];
    }
  }

  /** A bare name that starts and ends with a non-space character is its own package name. */
  lemma BareNameParses(req: string)
    requires NoChar(req, '>')
    requires req != [] && !IsSpace(req[0]) && !IsSpace(req[|req| - 1])
    ensures PackageName(req) == Success(req)
  {
    NoVersionConstraint(req);
    assert StripLeft(req) == req;
    assert StripRight(req) == req;
  }

  /** With a lower-case index, a name that is not lower case is never found, so its requirement always goes to pip. */
  lemma NotLowerCaseReinstalled(reqs: seq<string>, installed: set<string>, req: string)
    requires forall k :: k in installed ==> Lower(k) == k
    requires req in reqs && PackageName(req).Success? && Lower(PackageName(req).value) != PackageName(req).value
    ensures req in ToInstall(reqs, installed)
  {
    ToInstallMembership(reqs, installed, req);
  }

  /**
   * The installed-package index is keyed by lower-cased project names, while the names are compared
   * as written: with such an index, `PyYAML` and `GPUtil`, both listed in the requirements
   * (`MixedCaseNamesListed`), are always passed to pip again.
   */
  lemma MixedCaseNamesAlwaysReinstalled(reqs: seq<string>, installed: set<string>)
    requires "PyYAML" in reqs && "GPUtil" in reqs
    requires forall k :: k in installed ==> Lower(k) == k
    ensures "PyYAML" in ToInstall(reqs, installed) && "GPUtil" in ToInstall(reqs, installed)
  {
    PyYamlParses();
    NotLowerCaseReinstalled(reqs, installed, "PyYAML");
    GpuUtilParses();
    NotLowerCaseReinstalled(reqs, installed, "GPUtil");
  }

  lemma MixedCaseNamesListed()
    ensures "PyYAML" in Flatten(RequiredPackages) && "GPUtil" in Flatten(RequiredPackages)
  {
    var base := RequiredPackages[0].1;
    assert Flatten(RequiredPackages) == base + Flatten(RequiredPackages[1..]);
    assert base[9] == "PyYAML" && base[11] == "GPUtil";
  }

  /** `PyYAML` and `GPUtil` are bare names that parse to themselves and are not lower case. */
  lemma PyYamlParses()
    ensures PackageName("PyYAML") == Success("PyYAML") && Lower("PyYAML") != "PyYAML"
  {
    BareNameParses("PyYAML");
    NotLowerCase("PyYAML", 0);
  }

  lemma GpuUtilParses()
    ensures PackageName("GPUtil") == Success("GPUtil") && Lower("GPUtil") != "GPUtil"
  {
    BareNameParses("GPUtil");
    NotLowerCase("GPUtil", 1);
  }

  lemma NotLowerCase(s: string, i: nat)
    requires i < |s| && 'A' <= s[i] <= 'Z'
    ensures Lower(s) != s
  {
    assert Lower(s)[i] != s[i];
  }

  /** The pip arguments `_install_required_packages` runs with (after `sys.executable`). */
  function PipInstall(packages: seq<string>): seq<string>
  {
    ["-m", "pip", "install", "--upgrade"] + packages
  }

  /** One step of the `to_install` loop. */
  lemma ToInstallStep(reqs: seq<string>, i: nat, installed: set<string>, acc: seq<string>)
    requires i < |reqs|
    requires ToInstall(reqs, installed) == acc + ToInstall(reqs[i..], installed)
    ensures ToInstall(reqs, installed) ==
      (if Missing(reqs[i], installed) then acc + [reqs[i]] else acc) + ToInstall(reqs[i + 1..], installed)
  {
    var tail := reqs[i..];
    assert tail[0] == reqs[i] && tail[1..] == reqs[i + 1..];
    var rest := ToInstall(reqs[i + 1..], installed);
    if Missing(reqs[i], installed) {
      assert ToInstall(tail, installed) == [reqs[i]] + rest;
      assert acc + ([reqs[i]] + rest) == (acc + [reqs[i]]) + rest;
    } else {
      assert ToInstall(tail, installed) == rest;
    }
  }

  /** The loop that extends `all_requirements` group by group. */
  method FlattenGroups(groups: seq<(string, seq<string>)>) returns (all: seq<string>)
    ensures all == Flatten(groups)
  {
    all := [];
    var g := 0;
    while g < |groups|
      invariant 0 <= g <= |groups|
      invariant Flatten(groups) == all + Flatten(groups[g..])
    {
      assert groups[g..][1..] == groups[g + 1..];
      all := all + groups[g].1;
      g := g + 1;
    }
    assert groups[g..] == [];
  }

  /** The loop that collects `to_install`; the first requirement whose name cannot be parsed raises. */
  method SelectMissing(reqs: seq<string>, installed: set<string>) returns (r: Result<seq<string>, string>)
    ensures r.Failure? <==> !AllParse(reqs)
    ensures r.Success? ==> r.value == ToInstall(reqs, installed)
  {
    var toInstall: seq<string> := [];
    var i := 0;
    assert reqs[i..] == reqs;
    while i < |reqs|
      invariant 0 <= i <= |reqs|
      invariant forall j :: 0 <= j < i ==> PackageName(reqs[j]).Success?
      invariant ToInstall(reqs, installed) == toInstall + ToInstall(reqs[i..], installed)
    {
      var name := PackageName(reqs[i]);
      if name.Failure? {
        return Failure(name.error);
      }
      ToInstallStep(reqs, i, installed, toInstall);
      assert Missing(reqs[i], installed) <==> name.value !in installed;
      if name.value !in installed {
        toInstall := toInstall + [reqs[i]];
      }
      i := i + 1;
    }
    assert reqs[i..] == [];
    assert ToInstall(reqs[i..], installed) == [];
    return Success(toInstall);
  }

  class PlatformSetup {
    const environment: string
    const cudaAvailable: bool
    const requiredPackages: seq<(string, seq<string>)>

    /** `__init__`: records its inputs and fills in the three data-path variables that are absent. */
    constructor (environment: string, cudaAvailable: bool, environ: OsEnviron, cwd: string)
      modifies environ
      ensures this.environment == environment && this.cudaAvailable == cudaAvailable
      ensures requiredPackages == RequiredPackages
      ensures environ.vars == WithPathDefaults(old(environ.vars), cwd)
    {
      this.environment := environment;
      this.cudaAvailable := cudaAvailable;
      requiredPackages := RequiredPackages;
      new;
      if "MODEL_CACHE" !in environ.vars {
        environ.vars := environ.vars["MODEL_CACHE" := JoinPath(cwd, "assets/models")];
      }
      if "LORA_CACHE" !in environ.vars {
        environ.vars := environ.vars["LORA_CACHE" := JoinPath(cwd, "assets/loras")];
      }
      if "OUTPUT_DIR" !in environ.vars {
        environ.vars := environ.vars["OUTPUT_DIR" := JoinPath(cwd, "assets/outputs")];
      }
    }

    /**
     * `_install_required_packages`: flatten the groups, keep the requirements whose name is not
     * installed, and run pip only when that list is non-empty. A name that cannot be parsed raises.
     */
    method InstallRequiredPackages(installed: set<string>)
      returns (r: Result<Option<seq<string>>, string>)
      ensures r.Failure? <==> !AllParse(Flatten(requiredPackages))
      ensures r.Success? ==>
        var missing := ToInstall(Flatten(requiredPackages), installed);
        r.value == if missing == [] then None else Some(PipInstall(missing))
    {
      var allRequirements := FlattenGroups(requiredPackages);
      var toInstall := SelectMissing(allRequirements, installed);
      if toInstall.Failure? {
        return Failure(toInstall.error);
      }
      if toInstall.value != [] {
        r := Success(Some(PipInstall(toInstall.value)));
      } else {
        r := Success(None);
      }
    }

    /**
     * `run`: the dispatched routine, package installation and the common steps, in that order; true
     * exactly when none of them raises. With a progress callback the last report is 100 or 0.
     */
    method Run(installed: set<string>, setupRaises: bool, commonStepsRaise: bool, progressCallback: bool)
      returns (ok: bool, routine: SetupMethod, pipCommand: Option<seq<string>>, lastProgress: Option<int>)
      ensures routine == Dispatch(environment)
      ensures ok <==> !setupRaises && AllParse(Flatten(requiredPackages)) && !commonStepsRaise
      ensures lastProgress == if !progressCallback then None else if ok then Some(100) else Some(0)
      ensures pipCommand.Some? <==>
        !setupRaises && AllParse(Flatten(requiredPackages)) && ToInstall(Flatten(requiredPackages), installed) != []
      ensures pipCommand.Some? ==> pipCommand.value == PipInstall(ToInstall(Flatten(requiredPackages), installed))
    {
      routine := Dispatch(environment);
      pipCommand := None;
      ok := false;
      if !setupRaises {
        var installed' := InstallRequiredPackages(installed);
        if installed'.Success? {
          pipCommand := installed'.value;
          ok := !commonStepsRaise;
        }
      }
      lastProgress := if !progressCallback then None else if ok then Some(100) else Some(0);
    }
  }
}
