/** Detection of the CUDA version from the output of `nvidia-smi`: the search
    for the pattern `CUDA Version:\s*(\d+)\.(\d+)` (first match wins) and the
    conversion of its two groups to integers. */
module CudaDetect {
  import opened Common

  datatype CudaVersion = CudaVersion(major: nat, minor: nat)

  /** One run of `nvidia-smi`: its exit code and its (stripped) standard output. */
  datatype SmiRun = SmiRun(code: int, out: string)

  const Literal: string := "CUDA Version:"

  /** `\s` restricted to ASCII: Python's Unicode whitespace below 0x80 is
      0x09-0x0D and 0x1C-0x20. */
  predicate IsSpace(c: char)
  {
    (9 <= c as int <= 13) || (28 <= c as int <= 32)
  }

  /** `\d` restricted to ASCII. */
  predicate IsDigit(c: char)
  {
    '0' <= c <= '9'
  }

  predicate AllSpaces(s: string)
  {
    forall k :: 0 <= k < |s| ==> IsSpace(s[k])
  }

  predicate AllDigits(s: string)
  {
    forall k :: 0 <= k < |s| ==> IsDigit(s[k])
  }

  /** `int(d)` for a string of ASCII digits (leading zeros allowed). */
  function DigitsValue(d: string): (n: nat)
    requires AllDigits(d)
  {
    if d == [] then 0
    else DigitsValue(d[..|d| - 1]) * 10 + (d[|d| - 1] as int - '0' as int)
  }

  /** The decimal numeral of `n`, as `str(n)` writes it. */
  function Numeral(n: nat): (d: string)
    ensures |d| >= 1 && AllDigits(d)
  {
    var last := ['0' + (n % 10) as char];
    if n < 10 then last else Numeral(n / 10) + last
  }

  /** The end of the run of whitespace that starts at `i` (greedy `\s*`). */
  function SkipSpaces(s: string, i: nat): (j: nat)
    requires i <= |s|
    ensures i <= j <= |s|
    ensures AllSpaces(s[i..j])
    ensures j == |s| || !IsSpace(s[j])
    decreases |s| - i
  {
    if i < |s| && IsSpace(s[i]) then SkipSpaces(s, i + 1) else i
  }

  /** The end of the run of digits that starts at `i` (greedy `\d+`). */
  function SkipDigits(s: string, i: nat): (j: nat)
    requires i <= |s|
    ensures i <= j <= |s|
    ensures AllDigits(s[i..j])
    ensures j == |s| || !IsDigit(s[j])
    decreases |s| - i
  {
    if i < |s| && IsDigit(s[i]) then SkipDigits(s, i + 1) else i
  }

  /** The match of the pattern at position `i`, with greedy groups, if any. */
  function MatchAt(s: string, i: nat): Option<CudaVersion>
    requires i <= |s|
  {
    if i + |Literal| <= |s| && s[i..i + |Literal|] == Literal then
      var a := SkipSpaces(s, i + |Literal|);
      var b := SkipDigits(s, a);
      if a < b && b < |s| && s[b] == '.' then
        var c := SkipDigits(s, b + 1);
        if b + 1 < c then Some(CudaVersion(DigitsValue(s[a..b]), DigitsValue(s[b + 1..c])))
        else None
      else None
    else None
  }

  /** `re.search` from position `i`: the leftmost match wins. */
  function SearchFrom(s: string, i: nat): Option<CudaVersion>
    requires i <= |s|
    decreases |s| - i
  {
    if MatchAt(s, i).Some? then MatchAt(s, i)
    else if i == |s| then None
    else SearchFrom(s, i + 1)
  }

  /** The version that `detect_cuda_version` reads from a successful run's output. */
  function ParseCudaVersion(out: string): (v: Option<CudaVersion>)
    ensures v.None? <==> forall k :: 0 <= k <= |out| ==> MatchAt(out, k).None?
    ensures v.Some? ==>
      exists k :: 0 <= k <= |out| && v == MatchAt(out, k) &&
        forall j :: 0 <= j < k ==> MatchAt(out, j).None?
  {
    SearchFromIsFirstMatch(out, 0);
    SearchFrom(out, 0)
  }

  /** `detect_cuda_version`: `None` when no `nvidia-smi` path is found,
      when its exit code is not zero, and when its output has no match. */
  function DetectCudaVersion(probe: Option<SmiRun>): (v: Option<CudaVersion>)
    ensures probe.None? ==> v.None?
    ensures probe.Some? && probe.value.code != 0 ==> v.None?
    ensures probe.Some? && probe.value.code == 0 ==> v == ParseCudaVersion(probe.value.out)
  {
    match probe
    case None => None
    case Some(run) =>
      if run.code != 0 then None
      else ParseCudaVersion(run.out)
  }

  // ---------------------------------------------------------------------------
  // The pattern, stated without the scanner: positions a, b, c split the text
  // after the literal into `\s*`, `(\d+)`, `\.` and `(\d+)`.

  ghost predicate PatternAt(s: string, i: nat, a: int, b: int, c: int)
  {
    i + |Literal| <= a < b && b + 1 < c <= |s| &&
    s[i..i + |Literal|] == Literal &&
    AllSpaces(s[i + |Literal|..a]) &&
    AllDigits(s[a..b]) &&
    s[b] == '.' &&
    AllDigits(s[b + 1..c])
  }

  /** The scanner finds a match at `i` exactly when the pattern can match at
      `i`, and then it reports the groups of the longest such match. */
  lemma MatchAtIsPattern(s: string, i: nat)
    requires i <= |s|
    ensures MatchAt(s, i).Some? <==> exists a, b, c :: PatternAt(s, i, a, b, c)
    ensures MatchAt(s, i).Some? ==>
      exists a, b, c :: PatternAt(s, i, a, b, c) && (c == |s| || !IsDigit(s[c])) &&
        MatchAt(s, i) == Some(CudaVersion(DigitsValue(s[a..b]), DigitsValue(s[b + 1..c])))
  {
    if MatchAt(s, i).Some? {
      var a, b, c := MatchAtSound(s, i);
    }
    if exists a, b, c :: PatternAt(s, i, a, b, c) {
      var a, b, c :| PatternAt(s, i, a, b, c);
      MatchAtComplete(s, i, a, b, c);
    }
  }

  lemma MatchAtComplete(s: string, i: nat, a: int, b: int, c: int)
    requires PatternAt(s, i, a, b, c)
    ensures MatchAt(s, i).Some?
  {
    PatternFixesGroups(s, i, a, b, c);
  }

  lemma MatchAtSound(s: string, i: nat) returns (a: nat, b: nat, c: nat)
    requires i <= |s| && MatchAt(s, i).Some?
    ensures PatternAt(s, i, a, b, c) && (c == |s| || !IsDigit(s[c]))
    ensures MatchAt(s, i) == Some(CudaVersion(DigitsValue(s[a..b]), DigitsValue(s[b + 1..c])))
  {
    a := SkipSpaces(s, i + |Literal|);
    b := SkipDigits(s, a);
    c := SkipDigits(s, b + 1);
  }

  /** Whitespace, digits and `.` are disjoint, so a match of the pattern at `i`
      fixes where `\s*` and the first group end; the second group of any match
      ends no later than the greedy one. */
  lemma PatternFixesGroups(s: string, i: nat, a: int, b: int, c: int)
    requires PatternAt(s, i, a, b, c)
    ensures SkipSpaces(s, i + |Literal|) == a
    ensures SkipDigits(s, a) == b
    ensures SkipDigits(s, b + 1) >= c
  {
    assert !IsSpace(s[a]) by { assert s[a] == s[a..b][0]; }
    SkipSpacesOver(s, i + |Literal|, a);
    SkipDigitsOver(s, a, b);
    SkipDigitsPast(s, b + 1, c);
  }

  lemma {:induction false} SkipSpacesOver(s: string, i: nat, j: nat)
    requires i <= j < |s|
    requires AllSpaces(s[i..j]) && !IsSpace(s[j])
    ensures SkipSpaces(s, i) == j
    decreases j - i
  {
    if i < j {
      assert IsSpace(s[i..j][0]);
      assert s[i + 1..j] == s[i..j][1..];
      SkipSpacesOver(s, i + 1, j);
    }
  }

  lemma {:induction false} SkipDigitsPast(s: string, i: nat, j: nat)
    requires i <= j <= |s|
    requires AllDigits(s[i..j])
    ensures SkipDigits(s, i) >= j
    decreases j - i
  {
    if i < j {
      assert IsDigit(s[i..j][0]);
      assert s[i + 1..j] == s[i..j][1..];
      SkipDigitsPast(s, i + 1, j);
    }
  }

  /** The leftmost match wins: `SearchFrom` returns the match at the first
      position from `i` on where the scanner finds one, and `None` exactly when
      there is no such position. */
  lemma {:induction false} SearchFromIsFirstMatch(s: string, i: nat)
    requires i <= |s|
    ensures SearchFrom(s, i).None? <==> forall k :: i <= k <= |s| ==> MatchAt(s, k).None?
    ensures SearchFrom(s, i).Some? ==>
      exists k :: i <= k <= |s| && SearchFrom(s, i) == MatchAt(s, k) &&
        forall j :: i <= j < k ==> MatchAt(s, j).None?
    decreases |s| - i
  {
    if MatchAt(s, i).Some? {
      assert SearchFrom(s, i) == MatchAt(s, i);
    } else if i < |s| {
      assert SearchFrom(s, i) == SearchFrom(s, i + 1);
      SearchFromIsFirstMatch(s, i + 1);
      if SearchFrom(s, i).Some? {
        var k :| i + 1 <= k <= |s| && SearchFrom(s, i + 1) == MatchAt(s, k) &&
          forall j :: i + 1 <= j < k ==> MatchAt(s, j).None?;
        assert forall j :: i <= j < k ==> MatchAt(s, j).None? by {
          forall j | i <= j < k ensures MatchAt(s, j).None? {
            if j > i {
              assert i + 1 <= j < k;
            }
          }
        }
      }
    }
  }

  /** `detect_cuda_version` reads nothing exactly when the pattern matches
      nowhere in the output. */
  lemma ParseNoneIffNoPattern(out: string)
    ensures ParseCudaVersion(out).None? <==>
      forall k: nat, a, b, c :: k <= |out| ==> !PatternAt(out, k, a, b, c)
  {
    if ParseCudaVersion(out).None? {
      forall k: nat, a, b, c | k <= |out| ensures !PatternAt(out, k, a, b, c) {
        MatchAtIsPattern(out, k);
      }
    } else {
      var k :| 0 <= k <= |out| && MatchAt(out, k).Some?;
      MatchAtIsPattern(out, k);
    }
  }

  // ---------------------------------------------------------------------------
  // Numerals read back.

  lemma {:induction false} DigitsValueOfNumeral(n: nat)
    ensures DigitsValue(Numeral(n)) == n
  {
    var d := Numeral(n);
    if n >= 10 {
      DigitsValueOfNumeral(n / 10);
      assert d[..|d| - 1] == Numeral(n / 10);
    }
  }

  /** A line that starts with a rendered version, as `nvidia-smi` writes it
      ("CUDA Version: 12.2"), parses back to that version whenever the text
      after it does not continue the minor number. */
  lemma ParseRenderedVersion(major: nat, minor: nat, rest: string)
    requires rest == [] || !IsDigit(rest[0])
    ensures ParseCudaVersion(Literal + " " + Numeral(major) + "." + Numeral(minor) + rest)
         == Some(CudaVersion(major, minor))
  {
    var ma, mi := Numeral(major), Numeral(minor);
    var s := Literal + " " + ma + "." + mi + rest;
    var a := |Literal| + 1;
    var b := a + |ma|;
    var c := b + 1 + |mi|;
    assert s[..|Literal|] == Literal;
    assert s[a..b] == ma;
    assert s[b] == '.';
    assert s[b + 1..c] == mi;
    assert SkipSpaces(s, |Literal|) == a by {
      assert s[|Literal|] == ' ';
      assert !IsSpace(s[a]) by { assert s[a] == ma[0]; }
    }
    SkipDigitsOver(s, a, b);
    SkipDigitsOver(s, b + 1, c);
    DigitsValueOfNumeral(major);
    DigitsValueOfNumeral(minor);
    assert MatchAt(s, 0) == Some(CudaVersion(major, minor));
    assert ParseCudaVersion(s) == SearchFrom(s, 0);
  }

  lemma {:induction false} SkipDigitsOver(s: string, i: nat, j: nat)
    requires i <= j <= |s|
    requires AllDigits(s[i..j])
    requires j == |s| || !IsDigit(s[j])
    ensures SkipDigits(s, i) == j
    decreases j - i
  {
    if i < j {
      assert s[i] == s[i..j][0];
      assert s[i + 1..j] == s[i..j][1..];
      SkipDigitsOver(s, i + 1, j);
    }
  }
}
