/** The check run after a successful install (`verify_torch`): whether the
    installed PyTorch is the kind of build the tag asked for. */
module Verification {
  import opened Common
  import opened WheelTags

  /** What the installed PyTorch reports: the import fails, or it gives
      `torch.version.cuda` (absent for a CPU build) and
      `torch.cuda.is_available()`. */
  datatype TorchState =
    | ImportFailed
    | Imported(cudaVersion: Option<string>, available: bool)

  /** The verdict of `verify_torch`: a CUDA install passes when the build
      carries a CUDA version and a device is usable; a CPU install passes when
      the build carries no CUDA version and no device is usable. */
  function VerifyTorch(expectCuda: bool, st: TorchState): (ok: bool)
    ensures st.ImportFailed? ==> !ok
    ensures ok ==> st.Imported? && st.available == expectCuda && st.cudaVersion.Some? == expectCuda
    ensures st.Imported? && st.available == expectCuda && st.cudaVersion.Some? == expectCuda ==> ok
  {
    match st
    case ImportFailed => false
    case Imported(cudaVer, avail) =>
      if expectCuda then cudaVer.Some? && avail
      else cudaVer.None? && !avail
  }

  /** No installed state passes both as a CUDA install and as a CPU install. */
  lemma VerdictsExclusive(st: TorchState)
    ensures !(VerifyTorch(true, st) && VerifyTorch(false, st))
  {
  }

  /** A build with a CUDA version but no usable device (a missing driver, say)
      fails under every expectation. */
  lemma CudaBuildWithoutDeviceFails(cudaVer: string, expectCuda: bool)
    ensures !VerifyTorch(expectCuda, Imported(Some(cudaVer), false))
  {
  }

  /** The verdict for the tag actually used: a `cpu` install passes only on a
      CPU build, a CUDA tag only on a CUDA build with a usable device. */
  lemma VerdictForUsedTag(used: string, st: TorchState)
    requires used in Schedule
    ensures VerifyTorch(ExpectCuda(used), st) <==>
      st.Imported? && (if used == Cpu then st.cudaVersion.None? && !st.available
                       else st.cudaVersion.Some? && st.available)
  {
    ExpectCudaOfScheduled(used);
  }
}
