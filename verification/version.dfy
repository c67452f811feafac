/**
 * The worker version and its text form (src/worker/mod.rs, `Version` and
 * its `ToString`): "major.minor.patch", then "-" and the pre-release
 * identifiers joined by ",", then "+" and the build identifiers joined by ",".
 */
module Versions {
  import opened Wrappers
  import opened Strings

  /** The three numbers are `u32` in the source; the bound plays no part in the rendering. */
  datatype Version = Version(major: nat, minor: nat, patch: nat, preRelease: seq<string>, build: seq<string>)

  function Core(v: Version): string {
    NatToString(v.major) + "." + NatToString(v.minor) + "." + NatToString(v.patch)
  }

  function PreReleaseText(v: Version): string {
    if |v.preRelease| == 0 then "" else "-" + Join(v.preRelease, ",")
  }

  function BuildText(v: Version): string {
    if |v.build| == 0 then "" else "+" + Join(v.build, ",")
  }

  /** `Version::to_string`. */
  function ToString(v: Version): (s: string)
    ensures StartsWith(s, Core(v))
    ensures |v.preRelease| == 0 && |v.build| == 0 ==> s == Core(v)
  {
    Core(v) + PreReleaseText(v) + BuildText(v)
  }

  /**
   * Identifiers the text form keeps apart: no "," in any identifier and no
   * "+" in a pre-release identifier.
   */
  predicate Separable(v: Version) {
    && FreeOf(v.preRelease, ",") && FreeOf(v.preRelease, "+")
    && FreeOf(v.build, ",")
  }

  /** The text before the first "+" and the build identifiers after it. */
  function CutBuild(s: string): (string, seq<string>) {
    match IndexOf(s, "+")
    case None => (s, [])
    case Some(i) => (s[..i], Split(s[i + 1..], ","))
  }

  /** The text before the first "-" and the pre-release identifiers after it. */
  function CutPreRelease(front: string): (string, seq<string>) {
    match IndexOf(front, "-")
    case None => (front, [])
    case Some(j) => (front[..j], Split(front[j + 1..], ","))
  }

  /** Three decimal numerals separated by dots. */
  function ReadCore(core: string): Option<(nat, nat, nat)> {
    var numbers := Split(core, ".");
    if |numbers| == 3 && Canonical(numbers[0]) && Canonical(numbers[1]) && Canonical(numbers[2]) then
      Some((ParseNat(numbers[0]), ParseNat(numbers[1]), ParseNat(numbers[2])))
    else None
  }

  /** Reads a text form back: the build after the first "+", the pre-release after the first "-". */
  function Read(s: string): Option<Version> {
    var (front, build) := CutBuild(s);
    var (core, preRelease) := CutPreRelease(front);
    match ReadCore(core)
    case None => None
    case Some((major, minor, patch)) => Some(Version(major, minor, patch, preRelease, build))
  }

  /** The numbers and dots hold none of the separators "-" and "+". */
  lemma CoreFree(v: Version, p: string)
    requires p == "-" || p == "+"
    ensures !Contains(Core(v), p)
  {
    var a, b, c := NatToString(v.major), NatToString(v.minor), NatToString(v.patch);
    DigitsFree(a, p);
    DigitsFree(b, p);
    DigitsFree(c, p);
    CharFree('.', p);
    ConcatFree(a, ".", p);
    ConcatFree(a + ".", b, p);
    ConcatFree(a + "." + b, ".", p);
    ConcatFree(a + "." + b + ".", c, p);
  }

  /** The three numbers split back apart on the dots. */
  lemma CoreSplits(v: Version)
    ensures Split(Core(v), ".") == [NatToString(v.major), NatToString(v.minor), NatToString(v.patch)]
  {
    var a, b, c := NatToString(v.major), NatToString(v.minor), NatToString(v.patch);
    var items := [a, b, c];
    DigitsFree(a, ".");
    DigitsFree(b, ".");
    DigitsFree(c, ".");
    assert FreeOf(items, ".");
    assert items[1..] == [b, c] && [b, c][1..] == [c];
    assert Join([c], ".") == c;
    assert Join([b, c], ".") == b + "." + c;
    assert Join(items, ".") == a + "." + (b + "." + c);
    assert a + "." + (b + "." + c) == Core(v);
    SplitJoin(items, ".");
  }

  /** The pre-release part holds no "+". */
  lemma PreReleaseFree(v: Version)
    requires Separable(v)
    ensures !Contains(PreReleaseText(v), "+")
  {
    if |v.preRelease| == 0 {
      assert !MatchesAt("", "+", 0);
    } else {
      CharFree(',', "+");
      JoinFree(v.preRelease, ",", "+");
      CharFree('-', "+");
      ConcatFree("-", Join(v.preRelease, ","), "+");
    }
  }

  /** The text before the build part is the core and the pre-release part. */
  lemma CutBuildOf(v: Version)
    requires Separable(v)
    ensures CutBuild(ToString(v)) == (Core(v) + PreReleaseText(v), v.build)
  {
    var front := Core(v) + PreReleaseText(v);
    CoreFree(v, "+");
    PreReleaseFree(v);
    ConcatFree(Core(v), PreReleaseText(v), "+");
    if |v.build| == 0 {
      assert ToString(v) == front;
    } else {
      var rest := Join(v.build, ",");
      assert ToString(v) == front + "+" + rest;
      CutAtFirst(front, "+", rest);
      SplitJoin(v.build, ",");
    }
  }

  /** The core ends at the first "-", and the pre-release identifiers follow it. */
  lemma CutPreReleaseOf(v: Version)
    requires Separable(v)
    ensures CutPreRelease(Core(v) + PreReleaseText(v)) == (Core(v), v.preRelease)
  {
    CoreFree(v, "-");
    if |v.preRelease| == 0 {
      assert Core(v) + PreReleaseText(v) == Core(v);
    } else {
      var rest := Join(v.preRelease, ",");
      assert Core(v) + PreReleaseText(v) == Core(v) + "-" + rest;
      CutAtFirst(Core(v), "-", rest);
      SplitJoin(v.preRelease, ",");
    }
  }

  lemma ReadCoreOf(v: Version)
    ensures ReadCore(Core(v)) == Some((v.major, v.minor, v.patch))
  {
    CoreSplits(v);
    ParseNatToString(v.major);
    ParseNatToString(v.minor);
    ParseNatToString(v.patch);
  }

  /** The text form loses nothing: reading it back gives the version. */
  lemma ReadToString(v: Version)
    requires Separable(v)
    ensures Read(ToString(v)) == Some(v)
  {
    CutBuildOf(v);
    CutPreReleaseOf(v);
    ReadCoreOf(v);
  }

  /** Distinct versions with separable identifiers have distinct text forms. */
  lemma ToStringInjective(v: Version, w: Version)
    requires Separable(v) && Separable(w) && ToString(v) == ToString(w)
    ensures v == w
  {
    ReadToString(v);
    ReadToString(w);
  }

  /** The test vectors of src/worker/mod.rs without a build part. */
  lemma ToStringExamples()
    ensures ToString(Version(1, 2, 3, [], [])) == "1.2.3"
    ensures ToString(Version(1, 2, 3, ["rc1"], [])) == "1.2.3-rc1"
  {
    CoreExample([], []);
    CoreExample(["rc1"], []);
    assert Join(["rc1"], ",") == "rc1";
  }

  /** The test vectors of src/worker/mod.rs with a build part. */
  lemma ToStringBuildExamples()
    ensures ToString(Version(1, 2, 3, [], ["ac6dv2"])) == "1.2.3+ac6dv2"
    ensures ToString(Version(1, 2, 3, ["rc1"], ["ac6dv2"])) == "1.2.3-rc1+ac6dv2"
  {
    CoreExample([], ["ac6dv2"]);
    CoreExample(["rc1"], ["ac6dv2"]);
    assert Join(["rc1"], ",") == "rc1";
    assert Join(["ac6dv2"], ",") == "ac6dv2";
  }

  lemma CoreExample(preRelease: seq<string>, build: seq<string>)
    ensures Core(Version(1, 2, 3, preRelease, build)) == "1.2.3"
  {
    assert NatToString(1) == "1" && NatToString(2) == "2" && NatToString(3) == "3";
  }
}
