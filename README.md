# install_torch: CUDA detection, wheel-tag selection and fallback install

`scripts/install_torch.py` installs PyTorch (`torch`, `torchvision` and
`torchaudio`) into a virtual environment. It reads the driver's CUDA version
from the output of `nvidia-smi` and maps it to a PyTorch wheel tag (`cu121`,
`cu118` or `cpu`). `--tag` can override that tag. It then runs pip against
the tag's package index. When the install fails, it falls back through older
tags down to the CPU wheels. After a successful install it checks that the
installed build is the kind the tag asked for.

This Dafny project models the decision core of the script:

- **CudaDetect**: the search for `CUDA Version:\s*(\d+)\.(\d+)` in the
  output, where the leftmost match wins and the groups are greedy. It also
  models the conversion of the two groups to integers.
- **WheelTags**: the version-to-tag map, the package index for a tag, the
  candidate schedule and `expect_cuda`.
- **PipInstall**: the package specifiers, the pip command, and the loop that
  tries the candidates in order.
- **Verification**: the verdict of `verify_torch`.
- **Installer**: `main`. This covers the default versions on Python before
  3.9, the tag override, the order of the script's external steps, the dry
  run, the install phase and the exit status.

Python truthiness is modelled where the script relies on it. `tv or "2.0.0"`
and `f"torch=={tv}" if tv else "torch"` both treat an empty string like
`None`.

The world outside the script is passed in as parameters:

- `nvidia-smi` is one optional run, with an exit code and an output.
- The MSVC runtime check is a boolean.
- pip is an oracle from the full command line to its exit code.
- The PyTorch that gets imported after installing a tag is a function from
  that tag to what PyTorch reports.

`main`'s side effects become a trace of steps: ensure pip, uninstall, detect
CUDA, check the MSVC runtime, install it, one install per tag tried, verify,
check `nvcuda.dll`.

Differences between the script's documentation and its code (the model
follows the code):

- The docstring of `map_cuda_to_tag` (scripts/install_torch.py:49) lists
  `cu122` among its results, but the function never returns it.
  `cu122` is tried only after an explicit `--tag cu122`.
- The module docstring says the script prefers CUDA 11.8 wheels. The code
  maps every driver with CUDA major version 12 or higher to `cu121`.
- `--tag` accepts four values (`cpu`, `cu118`, `cu121`, `cu122`), not only
  the three tags detection can produce.
- `main` exits with status 1 only when every fallback failed. A failed
  verification still ends normally.
- The help text of `--dry-run` (scripts/install_torch.py:204) says
  "do not execute", but the dry-run check (:257) comes late. Before it,
  `main` has already ensured pip, which runs `pip install -U pip setuptools
  wheel` (:97, :223). It has also uninstalled the packages under
  `--reinstall` (:226) and downloaded and run the MSVC installer under
  `--install-vcredist` (:241-255). The model keeps this: a dry run's trace
  (`Installer.Run`) still holds those steps.

## Model

| member | source | states |
|---|---|---|
| Common.Or | scripts/install_torch.py:219-221 | `x or d` on an optional string: the value itself when it is `Truthy` (present and non-empty, Python's truth value of an optional string), otherwise the default |
| CudaDetect.DetectCudaVersion | scripts/install_torch.py:34-45 | no version when no `nvidia-smi` path is found or when it exits non-zero; after exit code 0, the version parsed from its output (both numbers are `nat`, as `int` of `\d+` is never negative) |
| CudaDetect.ParseCudaVersion | scripts/install_torch.py:42-45 | `re.search` over the whole output: no version exactly when no position matches; otherwise the match at the leftmost matching position |
| CudaDetect.MatchAtIsPattern | scripts/install_torch.py:42 | the contract of the scanner `MatchAt`: a match at position k exists exactly when the pattern (literal, spaces, digits, `.`, digits) occurs at k; the groups are the maximal digit runs, converted to integers |
| CudaDetect.PatternFixesGroups | scripts/install_torch.py:42 | in any occurrence of the pattern at k, the whitespace and the major group end where the greedy runs end, and the greedy minor group reaches at least as far as the occurrence's |
| CudaDetect.SearchFromIsFirstMatch | scripts/install_torch.py:42-44 | the contract of `SearchFrom`, `re.search` from position i: it finds nothing exactly when no position matches; otherwise it returns the match at the leftmost matching position |
| CudaDetect.ParseNoneIffNoPattern | scripts/install_torch.py:42-44 | the output yields no version exactly when the pattern occurs nowhere in it |
| CudaDetect.DigitsValueOfNumeral | scripts/install_torch.py:45 | `DigitsValue`, the model of `int` on a digit group, reads the decimal numeral of n (`Numeral`, as `str` writes it) back as n |
| CudaDetect.ParseRenderedVersion | scripts/install_torch.py:42-45 | output holding `CUDA Version: X.Y` (not followed by a digit) at its start yields (X, Y) |
| CudaDetect.SkipSpaces | scripts/install_torch.py:42 | the greedy `\s*` run from i: all whitespace, stopping at a non-space or at the end |
| CudaDetect.SkipDigits | scripts/install_torch.py:42 | the greedy `\d+` run from i: all digits, stopping at a non-digit or at the end |
| WheelTags.MapCudaToTag | scripts/install_torch.py:48-57 | the tag is one of the schedule's tags and never `cu122`; it is `cu121` for a major version of 12 or higher and `cu118` for major 11; it is a CUDA tag exactly when a version with major 11 or higher was detected, so `cpu` otherwise |
| WheelTags.MapCudaToTagMonotone | scripts/install_torch.py:48-57 | a driver with a higher major version never selects an older wheel; the minor version plays no part |
| WheelTags.IndexUrlForTag | scripts/install_torch.py:60-61 | every tag's index, `cpu` included, is `https://download.pytorch.org/whl/` followed by the tag |
| WheelTags.IndexUrlInjective | scripts/install_torch.py:60-61 | different tags have different index URLs |
| WheelTags.Candidates | scripts/install_torch.py:145-152 | between one and four candidates; the last is always `cpu`; the first is the primary tag when it is a known tag; an unknown tag gives `["cpu"]` |
| WheelTags.CandidatesAreSuffix | scripts/install_torch.py:145-152 | every candidate list is a suffix of `["cu122","cu121","cu118","cpu"]` |
| WheelTags.CandidatesDescend | scripts/install_torch.py:145-152 | candidates come in strictly falling preference, so no tag is tried twice |
| WheelTags.DetectedFallbacks | scripts/install_torch.py:9 | the chains that detection leads to: `cu121 -> cu118 -> cpu` for major 12 and higher, `cu118 -> cpu` for major 11, `cpu` alone for no version or an older one |
| WheelTags.AutoCandidatesAvoidCu122 | scripts/install_torch.py:48-57 | the fallbacks from a detected version never include `cu122` |
| WheelTags.ExpectCudaOfScheduled | scripts/install_torch.py:264 | the contract of `ExpectCuda`, `used.startswith("cu")` through `StartsWith`: among the tags that can be tried, it holds exactly for those other than `cpu` |
| PipInstall.PackageSpec | scripts/install_torch.py:132-134 | the specifier starts with the package name; it is `name==v` when the version is truthy and the bare name otherwise |
| PipInstall.FindPin | scripts/install_torch.py:132-134 | the position of the first `==` from `from`, or the end of the string when there is none |
| PipInstall.ParseSpecOfPackageSpec | scripts/install_torch.py:132-134 | a specifier reads back as its name and, exactly when the version is truthy, that version |
| PipInstall.InstallCommandShape | scripts/install_torch.py:130-135 | the contract of `InstallCommand` and `Packages`: the command is `python -m pip install --upgrade`, then the three specifiers in the order torch, torchvision, torchaudio, then `--index-url` and the tag's index |
| PipInstall.InstallCommandPins | scripts/install_torch.py:131-135 | each package argument of the command reads back as its name and the version it pins |
| PipInstall.InstallTorch | scripts/install_torch.py:129-141 | builds the command by appending one specifier per package and returns pip's exit code for it; the install counts as successful (`Succeeds`) exactly when that code is 0 |
| PipInstall.TryInOrder | scripts/install_torch.py:153-160 | the tags tried are a prefix of the candidates, and every one but the last failed; success exactly when some candidate succeeds, with the last tag tried (the first success) as the result; otherwise every candidate was tried and the result is the last one |
| PipInstall.TryInstallWithFallbacks | scripts/install_torch.py:144-160 | the fallback loop over `Candidates(primary)`: on success it returns the first succeeding candidate, after trying exactly the candidates up to it; when every candidate fails, it has tried them all and returns `cpu` |
| Verification.VerifyTorch | scripts/install_torch.py:163-197 | a failed import fails; otherwise the verdict holds exactly when the presence of `torch.version.cuda` and `is_available()` both equal `expect_cuda` |
| Verification.VerdictsExclusive | scripts/install_torch.py:194-197 | no installed state passes both as a CUDA install and as a CPU install |
| Verification.CudaBuildWithoutDeviceFails | scripts/install_torch.py:194-197 | a CUDA build without a usable device fails under either expectation |
| Verification.VerdictForUsedTag | scripts/install_torch.py:194-197 | with `expect_cuda` taken from the tag used: `cpu` passes only on a CPU build without a device, any CUDA tag only on a CUDA build with a device |
| Installer.OldPythonIsTupleComparison | scripts/install_torch.py:218 | `IsOldPython` agrees with Python's tuple comparison `sys.version_info < (3, 9)`, given by an independent lexicographic `TupleLess` |
| Installer.ResolveVersions | scripts/install_torch.py:214-221 | on Python before 3.9, a truthy requested version is kept and a missing or empty one becomes 2.0.0 / 0.15.1 / 2.0.1; on newer Pythons the options pass through unchanged |
| Installer.OldPythonPinsEverything | scripts/install_torch.py:218-221 | on Python before 3.9 every package is pinned; with no options the packages are `torch==2.0.0`, `torchvision==0.15.1`, `torchaudio==2.0.1` |
| Installer.InstallsAppend | scripts/install_torch.py:223-277 | the installs of a concatenated trace are the installs of each part, in order |
| Installer.InstallsOfInstallSteps | scripts/install_torch.py:154-156 | a trace of one install per tag installs exactly those tags |
| Installer.PrepareStepsFacts | scripts/install_torch.py:223-255 | the steps before the dry-run check start with the pip bootstrap, include the uninstall exactly under `--reinstall` and the MSVC install exactly when asked for and missing, and install nothing |
| Installer.AfterInstallFacts | scripts/install_torch.py:262-268 | the steps after the installs install nothing, verify exactly after a success and check `nvcuda.dll` exactly when a CUDA install fails the verification |
| Installer.PhaseStepsFacts | scripts/install_torch.py:261-268 | the install phase installs exactly the tags tried, never uninstalls or installs the MSVC runtime, and has the verification and `nvcuda.dll` steps as above |
| Installer.Prepare | scripts/install_torch.py:214-255 | versions resolved as above; the auto tag is the map of the detected version; a truthy `--tag` overrides it; the trace is exactly ensure pip, then uninstall under `--reinstall`, detect CUDA, check the MSVC runtime, then its install when asked for and missing; nothing is installed yet |
| Installer.InstallPhase | scripts/install_torch.py:261-277 | the trace is exactly one install per tag tried, then the verification after a success, then the `nvcuda.dll` check when a CUDA install fails it; the tags tried and the outcome are those of the fallback loop; after a success come the verification with the used tag's `expect_cuda`, and the `nvcuda.dll` check exactly when a CUDA install fails it; after total failure, no verification |
| Installer.Run | scripts/install_torch.py:200-277 | everything `Prepare` states; the trace is `Prepare`'s followed, unless it is a dry run, by the install phase's; a dry run ends before any install or verification; the exit status (`ExitCode`) is non-zero exactly when it was no dry run and every candidate's install fails |

## Left out

- Process I/O is not modelled: `run`, `subprocess.Popen`, and the runs of
  `nvidia-smi`, `ensurepip`, pip and `vc_redist`. Each is an exit code or an
  oracle passed in.
- Locating `nvidia-smi` (`shutil.which` and the `NVIDIA_SMI` and
  `NVSMI_PATH` variables) is left out. It is environment lookup. The model's
  input is the run's result, or none when no path is found.
- `CudaDetect.DetectCudaVersion`: an uncaught exception is not modelled.
  `NVIDIA_SMI` or `NVSMI_PATH` can name a missing or non-executable file
  (:36). Then `subprocess.Popen` raises inside `run` (:29, :39). Nothing
  catches that, so `main` aborts instead of falling back to `cpu`.
- `ensure_pip_available` and `uninstall_torch` are left out. They are
  process I/O, and `uninstall_torch` always returns 0. Both appear only as
  steps in the trace.
- `check_vcredist` and `check_nvcuda` are left out. They load DLLs through
  `ctypes`, a platform foreign call. The first is a boolean input; the
  second is a trace step.
- Downloading and running the MSVC redistributable is left out. It is
  network and filesystem work (`tempfile`, `urllib.request.urlretrieve`)
  and appears only as a trace step.
- Importing `torch`, `os.add_dll_directory`, the device name and
  `current_torch_summary` are left out. They are external library state.
  What PyTorch reports after an install is an input.
- `VerifyTorch`: the diagnostic report string is not modelled, only the
  verdict.
- Argument parsing, every `print` diagnostic and `sys.exit` are left out.
  The arguments are a record. The exit status is a function of the outcome.
- `CudaDetect.DetectCudaVersion`: `\s` and `\d` are modelled on ASCII only.
  Unicode digits and non-ASCII whitespace are not modelled.
- `CudaDetect.DetectCudaVersion`: the `strip()` of the output is not
  modelled. It removes only leading and trailing whitespace. A match starts
  with `C` and ends with a digit, so stripping does not change what
  `re.search` finds or the groups it returns.
- `PipInstall.InstallTorch`: the exit code is modelled as a total function
  of the command line. Concurrency, nondeterminism and side effects of pip
  across calls are not modelled.
