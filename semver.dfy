/**
 * Semantic versions. A version is a (major, minor, patch) triple, ordered
 * lexicographically, with an optional pre-release part that sorts below its
 * release. Both parsers the operator uses are written out by their
 * documented grammar: golang.org/x/mod/semver for the cluster release gate
 * ("vMAJOR[.MINOR[.PATCH[-PRERELEASE][+BUILD]]]", short forms allowed), and
 * blang/semver for the observability-bundle app version (the full
 * "MAJOR.MINOR.PATCH[-PRERELEASE][+BUILD]" form only).
 */
module Semver {
  import opened Kube
  import Strings

  datatype Version = Version(major: nat, minor: nat, patch: nat)

  /** Strict semantic-version order on release triples. */
  predicate Less(a: Version, b: Version)
  {
    a.major < b.major
    || (a.major == b.major && a.minor < b.minor)
    || (a.major == b.major && a.minor == b.minor && a.patch < b.patch)
  }

  /** A parsed version: its triple and its pre-release part ("" or "-..."). */
  datatype SemVer = SemVer(version: Version, prerelease: string)

  /** `v` sorts below the release `w`: a smaller triple, or a pre-release of `w`. */
  predicate Below(v: SemVer, w: Version)
  {
    Less(v.version, w) || (v.version == w && v.prerelease != "")
  }

  predicate IsDigit(c: char) { '0' <= c <= '9' }

  predicate IdentChar(c: char)
  {
    'A' <= c <= 'Z' || 'a' <= c <= 'z' || IsDigit(c) || c == '-'
  }

  /** Length of the run of decimal digits at the front of `s`. */
  function DigitRun(s: string): (n: nat)
    ensures n <= |s|
    ensures forall i :: 0 <= i < n ==> IsDigit(s[i])
    ensures n < |s| ==> !IsDigit(s[n])
  {
    if |s| == 0 || !IsDigit(s[0]) then 0 else 1 + DigitRun(s[1..])
  }

  /** Numeric value of a string of decimal digits. */
  function NatOf(digits: string): nat
    requires forall i :: 0 <= i < |digits| ==> IsDigit(digits[i])
  {
    if |digits| == 0 then 0
    else
      var d := digits[|digits| - 1];
      assert IsDigit(d);
      10 * NatOf(digits[..|digits| - 1]) + (d as int - '0' as int)
  }

  /** A run of digits with a superfluous leading zero ("01", "00"). */
  predicate BadNum(digits: string)
  {
    (forall i :: 0 <= i < |digits| ==> IsDigit(digits[i])) && |digits| > 1 && digits[0] == '0'
  }

  /** A leading decimal number without leading zeros, and what follows it. */
  function ParseNum(s: string): Option<(nat, string)>
  {
    var n := DigitRun(s);
    if n == 0 || BadNum(s[..n]) then None else Some((NatOf(s[..n]), s[n..]))
  }

  /** Dot-separated, non-empty identifiers over [0-9A-Za-z-]; numeric ones without leading zeros if asked. */
  predicate ValidIdents(s: string, noLeadingZeros: bool)
  {
    var parts := Strings.Split(s, '.');
    forall i :: 0 <= i < |parts| ==>
      |parts[i]| > 0
      && (forall j :: 0 <= j < |parts[i]| ==> IdentChar(parts[i][j]))
      && !(noLeadingZeros && BadNum(parts[i]))
  }

  /** Index of the first '+' in `s`, or |s|. */
  function PlusAt(s: string): (k: nat)
    ensures k <= |s| && '+' !in s[..k]
    ensures k < |s| ==> s[k] == '+'
  {
    if |s| == 0 || s[0] == '+' then 0
    else
      var k := 1 + PlusAt(s[1..]);
      assert s[..k] == [s[0]] + s[1..][..k - 1];
      k
  }

  /** The pre-release and build suffix after MAJOR.MINOR.PATCH; None when malformed. */
  function ParseSuffix(v: Version, rest: string): Option<SemVer>
  {
    var k := PlusAt(rest);
    var pre, build := rest[..k], rest[k..];
    if pre != "" && (pre[0] != '-' || !ValidIdents(pre[1..], true)) then None
    else if build != "" && !ValidIdents(build[1..], false) then None
    else Some(SemVer(v, pre))
  }

  /** x/mod/semver's parser; the short forms vMAJOR and vMAJOR.MINOR fill in zeros. */
  function Parse(v: string): Option<SemVer>
  {
    if |v| == 0 || v[0] != 'v' then None else ParseTriple(v[1..], true)
  }

  /** blang/semver's `Parse`: the full MAJOR.MINOR.PATCH form, no leading "v". */
  function ParseStrict(s: string): Option<SemVer>
  {
    ParseTriple(s, false)
  }

  /** MAJOR[.MINOR[.PATCH]] and the suffix; the short forms only when `allowShort`. */
  function ParseTriple(s: string, allowShort: bool): Option<SemVer>
  {
    match ParseNum(s)
      case None => None
      case Some((major, r1)) =>
        if r1 == "" && allowShort then Some(SemVer(Version(major, 0, 0), ""))
        else if r1 == "" || r1[0] != '.' then None
        else match ParseNum(r1[1..])
          case None => None
          case Some((minor, r2)) =>
            if r2 == "" && allowShort then Some(SemVer(Version(major, minor, 0), ""))
            else if r2 == "" || r2[0] != '.' then None
            else match ParseNum(r2[1..])
              case None => None
              case Some((patch, r3)) => ParseSuffix(Version(major, minor, patch), r3)
  }

  /**
   * `semver.Compare(v, w)` where `w` is a valid version without pre-release:
   * an invalid `v` is below every valid version, and a pre-release sorts
   * below its release.
   */
  function CompareToRelease(v: string, w: Version): (c: int)
    ensures c in {-1, 0, 1}
    ensures Parse(v).None? ==> c == -1
    ensures c == 0 <==> Parse(v).Some? && Parse(v).value == SemVer(w, "")
    ensures Parse(v).Some? ==> (c == -1 <==> Below(Parse(v).value, w))
    ensures c == 1 <==> Parse(v).Some? && Less(w, Parse(v).value.version)
  {
    match Parse(v)
      case None => -1
      case Some(p) => if Below(p, w) then -1 else if p == SemVer(w, "") then 0 else 1
  }

  /** The first release line with logging support on vintage workload clusters. */
  const V19_1_0 := Version(19, 1, 0)

  /** The vintage gate: `semver.Compare("v" + release, "v19.1.0") == -1`. */
  predicate ReleaseBelow19_1_0(release: string)
  {
    CompareToRelease("v" + release, V19_1_0) == -1
  }

  /**
   * The gate for every release label: a label that does not parse as a
   * version fails it, and a parsed one fails it exactly when it sorts below
   * 19.1.0, a pre-release of 19.1.0 included.
   */
  lemma ReleaseGate(release: string)
    ensures ReleaseBelow19_1_0(release) <==>
      Parse("v" + release).None? || Below(Parse("v" + release).value, V19_1_0)
    ensures !ReleaseBelow19_1_0(release) <==>
      Parse("v" + release).Some? && !Less(Parse("v" + release).value.version, V19_1_0)
      && (Parse("v" + release).value.version == V19_1_0 ==> Parse("v" + release).value.prerelease == "")
  {
  }

  /** A missing release label reads as "", and the invalid "v" is below every version. */
  lemma MissingReleaseIsBelow()
    ensures ReleaseBelow19_1_0("")
  {
    assert "v" + "" == "v";
    assert DigitRun("") == 0;
  }

  lemma ReleaseAtThresholdIsNotBelow()
    ensures !ReleaseBelow19_1_0("19.1.0")
  {
    assert "v" + "19.1.0" == "v19.1.0";
    assert "v19.1.0"[1..] == "19.1.0";
    ThresholdTriple();
  }

  lemma ThresholdTriple()
    ensures ParseTriple("19.1.0", true) == Some(SemVer(V19_1_0, ""))
  {
    ThresholdNumbers();
    assert ".1.0"[1..] == "1.0" && ".0"[1..] == "0";
    assert PlusAt("") == 0;
  }

  lemma ThresholdNumbers()
    ensures ParseNum("19.1.0") == Some((19, ".1.0"))
    ensures ParseNum("1.0") == Some((1, ".0"))
    ensures ParseNum("0") == Some((0, ""))
  {
    assert DigitRun("19.1.0") == 2;
    assert "19.1.0"[..2] == "19" && NatOf("19") == 19;
    assert "19.1.0"[2..] == ".1.0";
    assert DigitRun("1.0") == 1;
    assert "1.0"[..1] == "1" && NatOf("1") == 1;
    assert "1.0"[1..] == ".0";
    assert DigitRun("0") == 1;
    assert "0"[..1] == "0" && NatOf("0") == 0;
  }
}
