/** PyTorch wheel tags: the tag chosen for a detected CUDA version, the
    package index for a tag, and the order in which tags are tried. */
module WheelTags {
  import opened Common
  import opened CudaDetect

  const Cpu: string := "cpu"
  const Cu118: string := "cu118"
  const Cu121: string := "cu121"
  const Cu122: string := "cu122"

  /** Every tag, newest CUDA first; each fallback list is a suffix of it. */
  const Schedule: seq<string> := [Cu122, Cu121, Cu118, Cpu]

  const IndexBase: string := "https://download.pytorch.org/whl/"

  /** Position of a tag in the preference order: the CPU build lowest. */
  function Rank(tag: string): nat
  {
    if tag == Cu122 then 3 else if tag == Cu121 then 2 else if tag == Cu118 then 1 else 0
  }

  /** `map_cuda_to_tag`: no version gives the CPU wheels, major 11 the CUDA
      11.8 wheels, major 12 and above the CUDA 12.1 wheels, and every older
      version the CPU wheels. */
  function MapCudaToTag(ver: Option<CudaVersion>): (tag: string)
    ensures tag in Schedule && tag != Cu122
    ensures ver.Some? && ver.value.major >= 12 ==> tag == Cu121
    ensures ver.Some? && ver.value.major == 11 ==> tag == Cu118
    ensures tag != Cpu <==> ver.Some? && ver.value.major >= 11
  {
    match ver
    case None => Cpu
    case Some(v) =>
      if v.major >= 12 then Cu121
      else if v.major == 11 then Cu118
      else Cpu
  }

  /** A newer CUDA driver never selects an older wheel, and the minor version
      plays no part. */
  lemma MapCudaToTagMonotone(v: CudaVersion, w: CudaVersion)
    requires v.major <= w.major
    ensures Rank(MapCudaToTag(Some(v))) <= Rank(MapCudaToTag(Some(w)))
    ensures v.major == w.major ==> MapCudaToTag(Some(v)) == MapCudaToTag(Some(w))
  {
  }

  /** `index_url_for_tag`: the `cpu` branch writes out the same address that
      the general branch builds, so every tag's index is the base plus the tag. */
  function IndexUrlForTag(tag: string): (url: string)
    ensures url == IndexBase + tag
    ensures StartsWith(url, IndexBase) && url[|IndexBase|..] == tag
  {
    if tag == Cpu then "https://download.pytorch.org/whl/cpu" else IndexBase + tag
  }

  /** Different tags have different indexes. */
  lemma IndexUrlInjective(t: string, u: string)
    requires IndexUrlForTag(t) == IndexUrlForTag(u)
    ensures t == u
  {
    assert t == IndexUrlForTag(t)[|IndexBase|..];
  }

  /** The candidate list of `try_install_with_fallbacks`: the primary tag and
      every older tag after it, ending with `cpu`; an unknown tag gives `cpu` alone. */
  function Candidates(primary: string): (c: seq<string>)
    ensures 1 <= |c| <= |Schedule| && c[|c| - 1] == Cpu
    ensures primary in Schedule ==> c[0] == primary
    ensures primary !in Schedule ==> c == [Cpu]
  {
    if primary == Cu122 then [Cu122, Cu121, Cu118, Cpu]
    else if primary == Cu121 then [Cu121, Cu118, Cpu]
    else if primary == Cu118 then [Cu118, Cpu]
    else [Cpu]
  }

  /** Every candidate list is a suffix of the full schedule. */
  lemma CandidatesAreSuffix(primary: string)
    ensures Candidates(primary) == Schedule[|Schedule| - |Candidates(primary)|..]
  {
  }

  /** The candidates come in strictly falling preference, so no tag is tried
      twice. */
  lemma CandidatesDescend(primary: string, j: nat, k: nat)
    requires j < k < |Candidates(primary)|
    ensures Rank(Candidates(primary)[j]) > Rank(Candidates(primary)[k])
    ensures Candidates(primary)[j] != Candidates(primary)[k]
  {
  }

  /** The fallbacks from a detected version never include the CUDA 12.2 wheels;
      only an explicit `--tag cu122` tries them. */
  lemma AutoCandidatesAvoidCu122(ver: Option<CudaVersion>)
    ensures Cu122 !in Candidates(MapCudaToTag(ver))
  {
  }

  /** The fallback chains that detection leads to: `cu121 -> cu118 -> cpu` for
      CUDA 12 and newer, `cu118 -> cpu` for CUDA 11, and `cpu` alone otherwise. */
  lemma DetectedFallbacks(ver: Option<CudaVersion>)
    ensures ver.Some? && ver.value.major >= 12 ==> Candidates(MapCudaToTag(ver)) == [Cu121, Cu118, Cpu]
    ensures ver.Some? && ver.value.major == 11 ==> Candidates(MapCudaToTag(ver)) == [Cu118, Cpu]
    ensures ver.None? || ver.value.major < 11 ==> Candidates(MapCudaToTag(ver)) == [Cpu]
  {
  }

  /** `used.startswith("cu")`: whether a CUDA build is expected of the install. */
  predicate ExpectCuda(used: string)
  {
    StartsWith(used, "cu")
  }

  /** Among the tags that can be tried, exactly the ones other than `cpu`
      expect CUDA. */
  lemma ExpectCudaOfScheduled(t: string)
    requires t in Schedule
    ensures ExpectCuda(t) <==> t != Cpu
  {
    assert t[..2] == [t[0], t[1]];
  }
}
