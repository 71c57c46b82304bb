/** The script's entry point (`main`): default versions on old Pythons, the
    tag from detection or from `--tag`, the order of the steps it takes, the
    dry run, the install with fallbacks, the verification and the exit code.
    Parsed arguments are a record; what the machine answers (the Python
    version, `nvidia-smi`, the MSVC runtime check, pip's exit codes and the
    installed PyTorch) is an environment record. */
module Installer {
  import opened Common
  import opened CudaDetect
  import opened WheelTags
  import opened PipInstall
  import opened Verification

  datatype PythonVersion = PythonVersion(major: nat, minor: nat, micro: nat)

  /** `sys.version_info < (3, 9)`, compared as tuples. */
  predicate IsOldPython(py: PythonVersion)
  {
    py.major < 3 || (py.major == 3 && py.minor < 9)
  }

  /** Python's `<` on tuples of integers: the first differing position
      decides, and a proper prefix is smaller. */
  function TupleLess(a: seq<int>, b: seq<int>): bool
  {
    if b == [] then false
    else if a == [] then true
    else if a[0] != b[0] then a[0] < b[0]
    else TupleLess(a[1..], b[1..])
  }

  /** `IsOldPython` is the tuple comparison `sys.version_info < (3, 9)`. */
  lemma OldPythonIsTupleComparison(py: PythonVersion)
    ensures IsOldPython(py) <==> TupleLess([py.major, py.minor, py.micro], [3, 9])
  {
    var v: seq<int> := [py.major, py.minor, py.micro];
    var w: seq<int> := [3, 9];
    assert v[1..] == [py.minor, py.micro] && w[1..] == [9];
    assert TupleLess(v, w) == (if py.major != 3 then py.major < 3 else TupleLess([py.minor, py.micro], [9]));
    assert [py.minor, py.micro][1..] == [py.micro] && [9][1..] == [];
    assert TupleLess([py.minor, py.micro], [9]) == (if py.minor != 9 then py.minor < 9 else TupleLess([py.micro], []));
  }

  const DefaultTorch: string := "2.0.0"
  const DefaultTorchvision: string := "0.15.1"
  const DefaultTorchaudio: string := "2.0.1"

  /** The parsed command line. `tag` is `--tag`, `versions` the three
      `--...-version` options; a missing option is `None`. */
  datatype Args = Args(tag: Option<string>, reinstall: bool, dryRun: bool, installVcRedist: bool,
                       versions: Versions)

  /** The machine the script runs on. `smi` is the run of `nvidia-smi` (`None`
      when no path is found), `vcRedistOk` the result of the MSVC runtime
      check, `run` the exit code of a pip command and `torchAfter` what PyTorch
      reports after the wheels for a tag were installed. */
  datatype Env = Env(python: PythonVersion, executable: string, smi: Option<SmiRun>, vcRedistOk: bool,
                     run: seq<string> -> int, torchAfter: string -> TorchState)

  /** The external actions of `main`, in the order taken. */
  datatype Step =
    | EnsurePip
    | Uninstall
    | DetectCuda
    | CheckVcRedist
    | InstallVcRedist
    | Install(tag: string)
    | VerifyInstall
    | CheckNvcuda

  datatype Outcome =
    | DryRun
    | Installed(used: string, verified: bool)
    | AllFailed

  /** What `main` did: the detected and the resolved tag, the versions passed
      to pip, the trace of its steps, the tags whose install ran, and how it ended. */
  datatype Report = Report(autoTag: string, tag: string, versions: Versions, steps: seq<Step>,
                           tried: seq<string>, outcome: Outcome)

  /** The process's exit status: `sys.exit(1)` after every fallback failed,
      otherwise a normal return. */
  function ExitCode(o: Outcome): int
  {
    if o.AllFailed? then 1 else 0
  }

  /** The tags whose install a trace runs, in order. */
  function Installs(steps: seq<Step>): seq<string>
  {
    if steps == [] then []
    else (if steps[0].Install? then [steps[0].tag] else []) + Installs(steps[1..])
  }

  function InstallSteps(tags: seq<string>): (steps: seq<Step>)
  {
    seq(|tags|, k requires 0 <= k < |tags| => Install(tags[k]))
  }

  lemma {:induction false} InstallsAppend(a: seq<Step>, b: seq<Step>)
    ensures Installs(a + b) == Installs(a) + Installs(b)
  {
    if a == [] {
      assert a + b == b;
    } else {
      var head := if a[0].Install? then [a[0].tag] else [];
      assert (a + b)[0] == a[0];
      assert (a + b)[1..] == a[1..] + b;
      InstallsAppend(a[1..], b);
      calc {
        Installs(a + b);
        head + Installs(a[1..] + b);
        head + (Installs(a[1..]) + Installs(b));
        (head + Installs(a[1..])) + Installs(b);
      }
    }
  }

  lemma {:induction false} InstallsOfInstallSteps(tags: seq<string>)
    ensures Installs(InstallSteps(tags)) == tags
  {
    if tags != [] {
      assert InstallSteps(tags)[1..] == InstallSteps(tags[1..]);
      InstallsOfInstallSteps(tags[1..]);
    }
  }

  /** The rule of `main` for one version: on Python before 3.9 a version the
      user gave is kept and a missing (or empty) one becomes the default; on
      newer Pythons the option is passed on as given. */
  predicate VersionResolved(oldPython: bool, requested: Option<string>, default: string, v: Option<string>)
  {
    if oldPython then (Truthy(requested) ==> v == requested) && (!Truthy(requested) ==> v == Some(default))
    else v == requested
  }

  predicate VersionsResolved(py: PythonVersion, requested: Versions, vs: Versions)
  {
    VersionResolved(IsOldPython(py), requested.torch, DefaultTorch, vs.torch) &&
    VersionResolved(IsOldPython(py), requested.torchvision, DefaultTorchvision, vs.torchvision) &&
    VersionResolved(IsOldPython(py), requested.torchaudio, DefaultTorchaudio, vs.torchaudio)
  }

  /** The reassignments of `tv`, `ttv` and `tau` in `main`. */
  method ResolveVersions(requested: Versions, py: PythonVersion) returns (vs: Versions)
    ensures VersionsResolved(py, requested, vs)
  {
    var tv, ttv, tau := requested.torch, requested.torchvision, requested.torchaudio;
    if IsOldPython(py) {
      tv := Some(Or(tv, DefaultTorch));
      ttv := Some(Or(ttv, DefaultTorchvision));
      tau := Some(Or(tau, DefaultTorchaudio));
    }
    vs := Versions(tv, ttv, tau);
  }

  /** On Python before 3.9 every package is pinned; with no version options
      the pins are the reference versions 2.0.0, 0.15.1 and 2.0.1. */
  lemma OldPythonPinsEverything(py: PythonVersion, requested: Versions, vs: Versions)
    requires IsOldPython(py) && VersionsResolved(py, requested, vs)
    ensures Truthy(vs.torch) && Truthy(vs.torchvision) && Truthy(vs.torchaudio)
    ensures requested == Versions(None, None, None) ==>
      Packages(vs) == ["torch==2.0.0", "torchvision==0.15.1", "torchaudio==2.0.1"]
  {
    if requested == Versions(None, None, None) {
      assert PackageSpec(Names[0], vs.torch) == "torch==2.0.0";
      assert PackageSpec(Names[1], vs.torchvision) == "torchvision==0.15.1";
      assert PackageSpec(Names[2], vs.torchaudio) == "torchaudio==2.0.1";
    }
  }

  /** The steps of `main` before the dry-run check, in order: pip is ensured,
      the old packages are uninstalled when asked, CUDA is detected, the MSVC
      runtime is checked and, when asked and missing, installed. */
  function PrepareSteps(reinstall: bool, installVcRedist: bool): seq<Step>
  {
    [EnsurePip] + (if reinstall then [Uninstall] else []) + [DetectCuda, CheckVcRedist] +
    (if installVcRedist then [InstallVcRedist] else [])
  }

  /** The steps of the install phase, in order: one install per tag tried;
      after a success, the verification and, when a CUDA install fails it,
      the `nvcuda.dll` check. */
  function PhaseSteps(tried: seq<string>, o: Outcome): seq<Step>
  {
    InstallSteps(tried) + AfterInstall(o)
  }

  /** The steps after the installs: the verification after a success, then
      the `nvcuda.dll` check when a CUDA install fails it. */
  function AfterInstall(o: Outcome): seq<Step>
  {
    if o.Installed? then [VerifyInstall] + (if !o.verified && ExpectCuda(o.used) then [CheckNvcuda] else [])
    else []
  }

  /** What the install phase promises about the tags it tried and how it
      ended: a prefix of the candidates was tried, every tag but the last
      failed, every fallback failed exactly when no candidate succeeds (and
      then all were tried), and an install ends with the last tag tried, which
      succeeded, and the verdict of the verification for it. */
  predicate FallbackResult(env: Env, tag: string, vs: Versions, tried: seq<string>, o: Outcome)
  {
    1 <= |tried| <= |Candidates(tag)| && tried == Candidates(tag)[..|tried|] &&
    (forall k :: 0 <= k < |tried| - 1 ==> !Succeeds(env.run, env.executable, tried[k], vs)) &&
    (o.AllFailed? <==> forall t :: t in Candidates(tag) ==> !Succeeds(env.run, env.executable, t, vs)) &&
    (o.AllFailed? ==> tried == Candidates(tag)) &&
    (o.Installed? ==>
       o.used == tried[|tried| - 1] && Succeeds(env.run, env.executable, o.used, vs) &&
       o.verified == VerifyTorch(ExpectCuda(o.used), env.torchAfter(o.used)))
  }

  /** The part of `main` before the dry-run check: version defaults, pip
      bootstrap, optional uninstall, CUDA detection, the tag, and the MSVC
      runtime check with its optional install. */
  method Prepare(args: Args, env: Env) returns (vs: Versions, autoTag: string, tag: string, steps: seq<Step>)
    ensures VersionsResolved(env.python, args.versions, vs)
    ensures autoTag == MapCudaToTag(DetectCudaVersion(env.smi))
    ensures Truthy(args.tag) ==> tag == args.tag.value
    ensures !Truthy(args.tag) ==> tag == autoTag
    ensures (args.tag.None? || args.tag.value in Schedule) ==> tag in Schedule
    ensures steps == PrepareSteps(args.reinstall, !env.vcRedistOk && args.installVcRedist)
    ensures |steps| >= 3 && steps[0] == EnsurePip
    ensures Uninstall in steps <==> args.reinstall
    ensures InstallVcRedist in steps <==> !env.vcRedistOk && args.installVcRedist
    ensures Installs(steps) == [] && VerifyInstall !in steps && CheckNvcuda !in steps
  {
    vs := ResolveVersions(args.versions, env.python);
    steps := [EnsurePip];
    if args.reinstall {
      steps := steps + [Uninstall];
    }
    steps := steps + [DetectCuda];
    var ver := DetectCudaVersion(env.smi);
    autoTag := MapCudaToTag(ver);
    tag := Or(args.tag, autoTag);
    steps := steps + [CheckVcRedist];
    if !env.vcRedistOk && args.installVcRedist {
      steps := steps + [InstallVcRedist];
    }
    assert steps == PrepareSteps(args.reinstall, !env.vcRedistOk && args.installVcRedist);
    PrepareStepsFacts(args.reinstall, !env.vcRedistOk && args.installVcRedist);
  }

  /** The part of `main` after the dry-run check: the install with fallbacks,
      then, after a success, the verification and, when a CUDA install fails
      it, the `nvcuda.dll` check. */
  method InstallPhase(tag: string, vs: Versions, env: Env) returns (steps: seq<Step>, tried: seq<string>, outcome: Outcome)
    ensures steps == PhaseSteps(tried, outcome)
    ensures Installs(steps) == tried
    ensures Uninstall !in steps && InstallVcRedist !in steps && !outcome.DryRun?
    ensures FallbackResult(env, tag, vs, tried, outcome)
    ensures outcome.AllFailed? ==> VerifyInstall !in steps
    ensures outcome.Installed? ==>
      VerifyInstall in steps &&
      (CheckNvcuda in steps <==> !outcome.verified && ExpectCuda(outcome.used))
  {
    var ok, used;
    ok, used, tried := TryInstallWithFallbacks(env.executable, tag, vs, env.run);
    steps := InstallSteps(tried);
    if ok {
      var expectCuda := ExpectCuda(used);
      var verdict := VerifyTorch(expectCuda, env.torchAfter(used));
      var after := [VerifyInstall];
      if !verdict && expectCuda {
        after := after + [CheckNvcuda];
      }
      steps := steps + after;
      outcome := Installed(used, verdict);
    } else {
      outcome := AllFailed;
    }
    PhaseStepsFacts(tried, outcome);
  }

  /** `main`, from the parsed arguments to the report. */
  method Run(args: Args, env: Env) returns (r: Report)
    ensures VersionsResolved(env.python, args.versions, r.versions)
    ensures r.autoTag == MapCudaToTag(DetectCudaVersion(env.smi))
    ensures Truthy(args.tag) ==> r.tag == args.tag.value
    ensures !Truthy(args.tag) ==> r.tag == r.autoTag
    ensures r.steps == PrepareSteps(args.reinstall, !env.vcRedistOk && args.installVcRedist) +
      (if args.dryRun then [] else PhaseSteps(r.tried, r.outcome))
    ensures |r.steps| >= 3 && r.steps[0] == EnsurePip
    ensures Uninstall in r.steps <==> args.reinstall
    ensures InstallVcRedist in r.steps <==> !env.vcRedistOk && args.installVcRedist
    ensures args.dryRun <==> r.outcome.DryRun?
    ensures Installs(r.steps) == r.tried
    ensures args.dryRun ==> r.tried == [] && VerifyInstall !in r.steps
    ensures !args.dryRun ==> FallbackResult(env, r.tag, r.versions, r.tried, r.outcome)
    ensures r.outcome.AllFailed? ==> VerifyInstall !in r.steps
    ensures r.outcome.Installed? ==>
      VerifyInstall in r.steps &&
      (CheckNvcuda in r.steps <==> !r.outcome.verified && ExpectCuda(r.outcome.used))
    ensures ExitCode(r.outcome) != 0 <==>
      !args.dryRun && forall t :: t in Candidates(r.tag) ==> !Succeeds(env.run, env.executable, t, r.versions)
  {
    var vs, autoTag, tag, steps := Prepare(args, env);
    if args.dryRun {
      r := Report(autoTag, tag, vs, steps, [], DryRun);
    } else {
      var installSteps, tried, outcome := InstallPhase(tag, vs, env);
      InstallsAppend(steps, installSteps);
      PhaseStepsFacts(tried, outcome);
      r := Report(autoTag, tag, vs, steps + installSteps, tried, outcome);
      assert r.outcome == outcome && r.tried == tried && r.tag == tag && r.versions == vs;
    }
  }

  /** The steps before the dry-run check start with the pip bootstrap,
      include the uninstall and the MSVC install exactly when they were asked
      for (the latter only when the runtime is missing), and install nothing. */
  lemma PrepareStepsFacts(reinstall: bool, installVcRedist: bool)
    ensures var steps := PrepareSteps(reinstall, installVcRedist);
      |steps| >= 3 && steps[0] == EnsurePip &&
      (Uninstall in steps <==> reinstall) &&
      (InstallVcRedist in steps <==> installVcRedist) &&
      Installs(steps) == [] && VerifyInstall !in steps && CheckNvcuda !in steps
  {
    NoInstalls(PrepareSteps(reinstall, installVcRedist));
  }

  /** The install phase installs exactly the tags tried, never uninstalls or
      installs the MSVC runtime, verifies exactly after a success, and checks
      `nvcuda.dll` exactly when a CUDA install then fails the verification. */
  lemma PhaseStepsFacts(tried: seq<string>, o: Outcome)
    ensures var steps := PhaseSteps(tried, o);
      Installs(steps) == tried &&
      Uninstall !in steps && InstallVcRedist !in steps &&
      (VerifyInstall in steps <==> o.Installed?) &&
      (CheckNvcuda in steps <==> o.Installed? && !o.verified && ExpectCuda(o.used))
  {
    var after := AfterInstall(o);
    AfterInstallFacts(o);
    InstallsOfInstallSteps(tried);
    NotAnInstall(tried, Uninstall);
    NotAnInstall(tried, InstallVcRedist);
    NotAnInstall(tried, VerifyInstall);
    NotAnInstall(tried, CheckNvcuda);
    InstallsAppend(InstallSteps(tried), after);
  }

  /** The steps after the installs install nothing; they verify exactly after
      a success and check `nvcuda.dll` exactly when a CUDA install fails it. */
  lemma AfterInstallFacts(o: Outcome)
    ensures var after := AfterInstall(o);
      Installs(after) == [] && Uninstall !in after && InstallVcRedist !in after &&
      (VerifyInstall in after <==> o.Installed?) &&
      (CheckNvcuda in after <==> o.Installed? && !o.verified && ExpectCuda(o.used))
  {
    var after := AfterInstall(o);
    if o.Installed? && !o.verified && ExpectCuda(o.used) {
      assert after == [VerifyInstall, CheckNvcuda];
    }
    NoInstalls(after);
  }

  lemma NotAnInstall(tags: seq<string>, s: Step)
    requires !s.Install?
    ensures s !in InstallSteps(tags)
  {
  }

  lemma {:induction false} NoInstalls(steps: seq<Step>)
    requires forall k :: 0 <= k < |steps| ==> !steps[k].Install?
    ensures Installs(steps) == []
  {
    if steps != [] {
      NoInstalls(steps[1..]);
    }
  }
}
