/** Installing the three PyTorch packages with pip: the package specifiers,
    the pip command for one wheel tag, and the loop that tries the candidate
    tags in order until one install succeeds. Running a command is an oracle
    from the command line to its exit code. */
module PipInstall {
  import opened Common
  import opened WheelTags

  /** The versions asked for `torch`, `torchvision` and `torchaudio`. */
  datatype Versions = Versions(torch: Option<string>, torchvision: Option<string>, torchaudio: Option<string>)

  const Names: seq<string> := ["torch", "torchvision", "torchaudio"]

  /** `f"{name}=={v}" if v else name` */
  function PackageSpec(name: string, v: Option<string>): (spec: string)
    ensures StartsWith(spec, name)
    ensures Truthy(v) ==> spec == name + "==" + v.value
    ensures !Truthy(v) ==> spec == name
  {
    if Truthy(v) then name + "==" + v.value else name
  }

  /** The command-line arguments passed through `pkgs`, in the order appended. */
  function Packages(vs: Versions): (pkgs: seq<string>)
  {
    [PackageSpec(Names[0], vs.torch), PackageSpec(Names[1], vs.torchvision), PackageSpec(Names[2], vs.torchaudio)]
  }

  /** The pip command of `install_torch` for one tag. The last argument is
      the tag's index, written as the base plus the tag, which is what
      `IndexUrlForTag` returns for every tag. */
  function InstallCommand(python: string, tag: string, vs: Versions): seq<string>
  {
    var pkgs := Packages(vs);
    [python, "-m", "pip", "install", "--upgrade", pkgs[0], pkgs[1], pkgs[2], "--index-url", IndexBase + tag]
  }

  /** Whether pip, run with the command for `tag`, exits with code 0. */
  predicate Succeeds(run: seq<string> -> int, python: string, tag: string, vs: Versions)
  {
    run(InstallCommand(python, tag, vs)) == 0
  }

  // ---------------------------------------------------------------------------
  // Reading a specifier back: a name and, after the first `==`, a version.

  /** The index of the first `==` in `s`, or `|s|` when there is none. */
  function FindPin(s: string, from: nat): (i: nat)
    requires from <= |s|
    ensures from <= i <= |s|
    ensures i < |s| ==> i + 1 < |s| && s[i] == '=' && s[i + 1] == '='
    ensures forall j :: from <= j < i && j + 1 < |s| ==> !(s[j] == '=' && s[j + 1] == '=')
    decreases |s| - from
  {
    if from + 1 >= |s| then |s|
    else if s[from] == '=' && s[from + 1] == '=' then from
    else FindPin(s, from + 1)
  }

  /** Splits `name==version` into its parts; a bare name has no version. */
  function ParseSpec(s: string): (string, Option<string>)
  {
    var i := FindPin(s, 0);
    if i < |s| then (s[..i], Some(s[i + 2..])) else (s, None)
  }

  /** A specifier reads back as its name and the version it pins: a falsy
      version (`None` or empty) leaves the name bare. */
  lemma ParseSpecOfPackageSpec(name: string, v: Option<string>)
    requires forall k :: 0 <= k < |name| ==> name[k] != '='
    ensures ParseSpec(PackageSpec(name, v)) == (name, if Truthy(v) then v else None)
  {
    var s := PackageSpec(name, v);
    var i := FindPin(s, 0);
    // No `==` can start inside the name, which has no `=`.
    assert i >= |name|;
    if Truthy(v) {
      assert s[|name|] == '=' && s[|name| + 1] == '=';
      assert i == |name|;
      assert s[..i] == name;
      assert s[i + 2..] == v.value;
    }
  }

  /** The command runs pip from the given interpreter, upgrades the three
      packages in order and ends with `--index-url` and the tag's index. */
  lemma InstallCommandShape(python: string, tag: string, vs: Versions)
    ensures var cmd := InstallCommand(python, tag, vs);
      |cmd| == 10 &&
      cmd[..5] == [python, "-m", "pip", "install", "--upgrade"] &&
      cmd[5..8] == Packages(vs) &&
      cmd[8] == "--index-url" && cmd[9] == IndexUrlForTag(tag) &&
      forall k :: 0 <= k < 3 ==> StartsWith(cmd[5 + k], Names[k])
  {
  }

  /** Each package of the command reads back as its name and, exactly when a
      version was given, that version. */
  lemma InstallCommandPins(python: string, tag: string, vs: Versions)
    ensures var cmd := InstallCommand(python, tag, vs);
      ParseSpec(cmd[5]) == (Names[0], if Truthy(vs.torch) then vs.torch else None) &&
      ParseSpec(cmd[6]) == (Names[1], if Truthy(vs.torchvision) then vs.torchvision else None) &&
      ParseSpec(cmd[7]) == (Names[2], if Truthy(vs.torchaudio) then vs.torchaudio else None)
  {
    var cmd := InstallCommand(python, tag, vs);
    assert cmd[5..8] == Packages(vs);
    ParseSpecOfPackageSpec(Names[0], vs.torch);
    ParseSpecOfPackageSpec(Names[1], vs.torchvision);
    ParseSpecOfPackageSpec(Names[2], vs.torchaudio);
  }

  // ---------------------------------------------------------------------------
  // The operations that run pip.

  /** `install_torch`: builds the package list by appending one specifier per
      package, runs pip with the tag's index and returns pip's exit code. */
  method InstallTorch(python: string, tag: string, vs: Versions, run: seq<string> -> int)
    returns (code: int, cmd: seq<string>)
    ensures cmd == InstallCommand(python, tag, vs)
    ensures code == run(cmd)
    ensures Succeeds(run, python, tag, vs) <==> code == 0
  {
    var url := IndexUrlForTag(tag);
    var pkgs: seq<string> := [];
    pkgs := pkgs + [PackageSpec("torch", vs.torch)];
    pkgs := pkgs + [PackageSpec("torchvision", vs.torchvision)];
    pkgs := pkgs + [PackageSpec("torchaudio", vs.torchaudio)];
    cmd := [python, "-m", "pip", "install", "--upgrade"] + pkgs + ["--index-url", url];
    code := run(cmd);
  }

  /** `try_install_with_fallbacks`: tries the candidates of `primary` in order
      and stops at the first install that exits with 0. `tried` lists the tags
      whose install was run. On success `used` is the first candidate that
      succeeds, and every earlier candidate failed. When no candidate succeeds,
      every candidate was tried and `used` is the last one, which is `cpu`. */
  method TryInstallWithFallbacks(python: string, primary: string, vs: Versions, run: seq<string> -> int)
    returns (ok: bool, used: string, tried: seq<string>)
    ensures 1 <= |tried| <= |Candidates(primary)| && tried == Candidates(primary)[..|tried|]
    ensures forall k :: 0 <= k < |tried| - 1 ==> !Succeeds(run, python, tried[k], vs)
    ensures ok <==> exists t :: t in Candidates(primary) && Succeeds(run, python, t, vs)
    ensures ok ==> used == tried[|tried| - 1] && Succeeds(run, python, used, vs)
    ensures !ok ==> tried == Candidates(primary) && used == Cpu
  {
    var candidates := Candidates(primary);
    ok, used, tried := TryInOrder(python, candidates, vs, run);
  }

  /** The loop of `try_install_with_fallbacks` over a candidate list: `last`
      starts as `cpu` and follows the tag being tried. */
  method TryInOrder(python: string, candidates: seq<string>, vs: Versions, run: seq<string> -> int)
    returns (ok: bool, used: string, tried: seq<string>)
    ensures |tried| <= |candidates| && tried == candidates[..|tried|]
    ensures candidates != [] ==> |tried| >= 1
    ensures forall k :: 0 <= k < |tried| - 1 ==> !Succeeds(run, python, tried[k], vs)
    ensures ok <==> exists t :: t in candidates && Succeeds(run, python, t, vs)
    ensures ok ==> used == tried[|tried| - 1] && Succeeds(run, python, used, vs)
    ensures !ok ==> tried == candidates && used == if candidates == [] then Cpu else candidates[|candidates| - 1]
  {
    var last := Cpu;
    var i := 0;
    while i < |candidates|
      invariant 0 <= i <= |candidates|
      invariant forall k :: 0 <= k < i ==> !Succeeds(run, python, candidates[k], vs)
      invariant last == if i == 0 then Cpu else candidates[i - 1]
    {
      var tag := candidates[i];
      last := tag;
      var code, _ := InstallTorch(python, tag, vs, run);
      if code == 0 {
        ok, used, tried := true, tag, candidates[..i + 1];
        return;
      }
      i := i + 1;
    }
    assert forall t :: t in candidates ==> !Succeeds(run, python, t, vs) by {
      forall t | t in candidates ensures !Succeeds(run, python, t, vs) {
        var k :| 0 <= k < |candidates| && candidates[k] == t;
      }
    }
    ok, used, tried := false, last, candidates;
  }
}
