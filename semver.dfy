/** The semantic-version value the modifier works on, and the validity of a
    pre-release tag as section 9 of Semantic Versioning 2.0.0 defines it
    (the check `semver::Prerelease::new` performs). */
module Semver {
  import opened Primitives

  /** `MAJOR.MINOR.PATCH[-pre][+build]`. An empty `pre` is a release; `build`
      is carried along opaquely. */
  datatype Version = Version(major: u64, minor: u64, patch: u64, pre: string, build: string)

  predicate IsRelease(v: Version) {
    v.pre == ""
  }

  /** `a.major.minor.patch` comes strictly before `b`'s, lexicographically. */
  predicate CoreLess(a: Version, b: Version) {
    a.major < b.major
    || (a.major == b.major && a.minor < b.minor)
    || (a.major == b.major && a.minor == b.minor && a.patch < b.patch)
  }

  /** The characters an identifier may use: `[0-9A-Za-z-]`. */
  predicate IsIdentifierChar(c: char) {
    IsDigit(c) || 'A' <= c <= 'Z' || 'a' <= c <= 'z' || c == '-'
  }

  /** One pre-release identifier: non-empty, made of `[0-9A-Za-z-]`, and, when
      it is numeric, without leading zeros. */
  predicate ValidIdentifier(id: string) {
    id != ""
    && (forall i | 0 <= i < |id| :: IsIdentifierChar(id[i]))
    && (AllDigits(id) && |id| > 1 ==> id[0] != '0')
  }

  /** A pre-release tag: one or more valid identifiers separated by dots. */
  predicate ValidPrerelease(s: string)
    ensures ValidPrerelease(s) ==> s != ""
    decreases |s|
  {
    match IndexOfDot(s)
    case None => ValidIdentifier(s)
    case Some(i) => ValidIdentifier(s[..i]) && ValidPrerelease(s[i + 1..])
  }

  /** The versions the modifier admits: a release, or a valid pre-release tag. */
  predicate ValidVersion(v: Version) {
    v.pre == "" || ValidPrerelease(v.pre)
  }

  /** A dot-free tag is valid exactly when it is one valid identifier. */
  lemma DotFreePrerelease(s: string)
    requires '.' !in s
    ensures ValidPrerelease(s) <==> ValidIdentifier(s)
  {
  }

  /** Both halves of a valid tag split at its first dot are valid: the head is
      one identifier and the rest is again a tag. */
  lemma SplitValidPrerelease(s: string)
    requires ValidPrerelease(s) && SplitOnce(s).Some?
    ensures ValidIdentifier(SplitOnce(s).value.0)
    ensures ValidPrerelease(SplitOnce(s).value.1)
  {
  }

  /** The decimal numeral of any number is a valid (numeric) identifier. */
  lemma DecimalIsIdentifier(n: nat)
    ensures ValidIdentifier(Decimal(n)) && '.' !in Decimal(n)
  {
    var d := Decimal(n);
    assert forall i | 0 <= i < |d| :: IsDigit(d[i]);
  }

  /** Appending one more dot-free identifier keeps a tag valid, and only a
      valid tag becomes valid by it. */
  lemma {:induction false} AppendIdentifier(l: string, d: string)
    requires ValidIdentifier(d) && '.' !in d
    ensures ValidPrerelease(l + "." + d) <==> ValidPrerelease(l)
    decreases |l|
  {
    var s := l + "." + d;
    match SplitOnce(l)
    case None =>
      SplitOnceOfJoin(l, d);
      DotFreePrerelease(d);
    case Some((a, b)) =>
      assert s == a + "." + (b + "." + d);
      SplitOnceOfJoin(a, b + "." + d);
      AppendIdentifier(b, d);
  }
}
