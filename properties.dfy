/** What a bump does, directive by directive, and what the pre-release
    composer and decomposer promise each other. */
module ModifierProperties {
  import opened Wrappers
  import opened Primitives
  import opened Semver
  import opened VersionExt
  import opened Modifier

  // ---------------------------------------------------------------------
  // The decomposer and the composer
  // ---------------------------------------------------------------------

  /** The three dot-free shapes `parse_prerelease` tells apart: empty, a
      u64, and a bare label (anything else without a dot). */
  lemma DotFreeParse(pre: string)
    requires '.' !in pre
    ensures pre == "" ==> ParsePrerelease(pre) == Ok((None, None))
    ensures ParseU64(pre).Some? ==> ParsePrerelease(pre) == Ok((None, Some(ParseU64(pre).value)))
    ensures pre != "" && ParseU64(pre).None? ==> ParsePrerelease(pre) == Ok((Some(pre), None))
  {
  }

  /** A tag with a dot is split at its first dot: the text after it must be
      one u64, so `alpha.beta.1` and `rc.x` are both rejected. */
  lemma DottedParse(a: string, b: string)
    requires '.' !in a
    ensures ParseU64(b).Some? ==> ParsePrerelease(a + "." + b) == Ok((Some(a), Some(ParseU64(b).value)))
    ensures ParseU64(b).None? ==> ParsePrerelease(a + "." + b) == Err(UnsupportedScheme)
  {
    SplitOnceOfJoin(a, b);
  }

  /** Decomposing a composed tag gives back its label and counter, provided
      the label has no dot of its own. */
  lemma ParseComposed(preId: Option<string>, n: u64)
    requires preId.Some? ==> '.' !in preId.value
    ensures ParsePrerelease(PrereleaseText(preId, n)) == Ok((preId, Some(n)))
  {
    ParseDecimal(n);
    DecimalIsIdentifier(n);
    if preId.Some? {
      SplitOnceOfJoin(preId.value, Decimal(n));
    }
  }

  /** The same round trip through `build_prerelease` itself. */
  lemma ParseBuilt(preId: Option<string>, n: u64)
    requires preId.Some? ==> '.' !in preId.value
    requires BuildPrerelease(preId, n).Ok?
    ensures ParsePrerelease(BuildPrerelease(preId, n).value) == Ok((preId, Some(n)))
  {
    ParseComposed(preId, n);
  }

  /** A numeric identifier parsed as a u64 prints back as itself. */
  lemma NumericIdentifierPrints(s: string)
    requires ValidIdentifier(s) && ParseU64(s).Some?
    ensures Decimal(ParseU64(s).value) == s
  {
    assert AllDigits(s) by {
      forall i | 0 <= i < |s| ensures IsDigit(s[i]) {
        assert IsIdentifierChar(s[i]);
      }
    }
    DecimalOfDigits(s);
  }

  /** Decomposing a valid tag loses nothing: its parts print back as the tag. */
  lemma ParseRecompose(pre: string)
    requires ValidPrerelease(pre) && ParsePrerelease(pre).Ok?
    ensures Recompose(ParsePrerelease(pre).value) == pre
  {
    match SplitOnce(pre)
    case Some((a, b)) =>
      SplitValidPrerelease(pre);
      DotFreePrerelease(b);
      NumericIdentifierPrints(b);
    case None =>
      DotFreePrerelease(pre);
      if ParseU64(pre).Some? {
        NumericIdentifierPrints(pre);
      }
  }

  /** A label with a dot in it is never read back as a label, so a train
      started with such a label cannot be continued under it. */
  lemma DottedLabelNeverMatches(pre: string, preId: string)
    requires '.' in preId && ParsePrerelease(pre).Ok?
    ensures ParsePrerelease(pre).value.0 != Some(preId)
  {
  }

  // ---------------------------------------------------------------------
  // Directive by directive
  // ---------------------------------------------------------------------

  /** `Replace(r)` yields `r`, whatever the version and the label were. */
  lemma ReplaceYieldsTarget(r: Version, preId: Option<string>, v: Version)
    ensures ApplyTo(VersionModifier(Replace(r), preId), v) == Outcome(r, Ok(()))
  {
  }

  /** On a release, `Major`, `Minor` and `Patch` are the plain increments. */
  lemma ReleaseLineOnRelease(m: VersionModifier, v: Version)
    requires m.kind == Major || m.kind == Minor || m.kind == Patch
    requires IsRelease(v) && NoOverflow(m, v)
    ensures m.kind == Major ==> ApplyTo(m, v) == Outcome(BumpedMajor(v), Ok(()))
    ensures m.kind == Minor ==> ApplyTo(m, v) == Outcome(BumpedMinor(v), Ok(()))
    ensures m.kind == Patch ==> ApplyTo(m, v) == Outcome(BumpedPatch(v), Ok(()))
  {
  }

  /** On a pre-release, `Major`, `Minor` and `Patch` only drop the tag: the
      pending release is promoted, numbers and build metadata unchanged. */
  lemma ReleaseLineOnPrerelease(m: VersionModifier, v: Version)
    requires m.kind == Major || m.kind == Minor || m.kind == Patch
    requires !IsRelease(v)
    ensures ApplyTo(m, v).result == Ok(())
    ensures var w := ApplyTo(m, v).version;
      IsRelease(w) && w.major == v.major && w.minor == v.minor && w.patch == v.patch
      && w.build == v.build
  {
  }

  /** The version a pre-bump increments to, before its tag is set. */
  function PreBumpBase(k: BumpKind, v: Version): (b: Version)
    requires k == PreMajor || k == PreMinor || k == PrePatch
    requires NoOverflow(VersionModifier(k, None), v)
    ensures CoreLess(v, b) && IsRelease(b) && b.build == ""
  {
    match k
    case PreMajor => BumpedMajor(v)
    case PreMinor => BumpedMinor(v)
    case PrePatch => BumpedPatch(v)
  }

  /** `PreMajor`, `PreMinor` and `PrePatch` increment, then start a train at
      counter 0: `0` with no label, `<label>.0` with a valid label. With an
      invalid label the call fails, and the version stays incremented. */
  lemma PreBump(m: VersionModifier, v: Version)
    requires m.kind == PreMajor || m.kind == PreMinor || m.kind == PrePatch
    requires NoOverflow(m, v)
    ensures var b := PreBumpBase(m.kind, v);
      && (m.preId.None? ==> ApplyTo(m, v) == Outcome(b.(pre := "0"), Ok(())))
      && (m.preId.Some? && ValidPrerelease(m.preId.value) ==>
            ApplyTo(m, v) == Outcome(b.(pre := m.preId.value + ".0"), Ok(())))
      && (m.preId.Some? && !ValidPrerelease(m.preId.value) ==>
            ApplyTo(m, v) == Outcome(b, Err(InvalidPrerelease)))
  {
    assert Decimal(0) == "0";
  }

  /** `PreRelease` on a release bumps the patch number first, then starts a
      train at counter 0 (failing, patch already bumped, on an invalid label). */
  lemma PreReleaseFromRelease(m: VersionModifier, v: Version)
    requires m.kind == PreRelease && IsRelease(v) && v.patch < U64_MAX
    ensures var b := BumpedPatch(v);
      && (m.preId.None? ==> ApplyTo(m, v) == Outcome(b.(pre := "0"), Ok(())))
      && (m.preId.Some? && ValidPrerelease(m.preId.value) ==>
            ApplyTo(m, v) == Outcome(b.(pre := m.preId.value + ".0"), Ok(())))
      && (m.preId.Some? && !ValidPrerelease(m.preId.value) ==>
            ApplyTo(m, v) == Outcome(b, Err(InvalidPrerelease)))
  {
    assert Decimal(0) == "0";
  }

  /** `PreRelease` on a valid pre-release whose label is the one supplied
      continues the train: same label, counter plus one (0 if there was
      none), numbers and build unchanged. This never fails. */
  lemma PreReleaseContinues(m: VersionModifier, v: Version)
    requires m.kind == PreRelease && ValidVersion(v) && !IsRelease(v) && NoOverflow(m, v)
    requires ParsePrerelease(v.pre).Ok? && ParsePrerelease(v.pre).value.0 == m.preId
    ensures var (id, numeric) := ParsePrerelease(v.pre).value;
      ApplyTo(m, v) ==
        Outcome(v.(pre := PrereleaseText(id, if numeric.Some? then numeric.value + 1 else 0)), Ok(()))
  {
    var (id, numeric) := ParsePrerelease(v.pre).value;
    if id.Some? {
      match SplitOnce(v.pre)
      case Some((a, b)) =>
        SplitValidPrerelease(v.pre);
        DotFreePrerelease(a);
      case None =>
    }
  }

  /** `PreRelease` on a pre-release under another label starts the supplied
      label's train at 0. An invalid label fails and changes nothing. */
  lemma PreReleaseSwitches(m: VersionModifier, v: Version)
    requires m.kind == PreRelease && !IsRelease(v) && NoOverflow(m, v)
    requires ParsePrerelease(v.pre).Ok? && ParsePrerelease(v.pre).value.0 != m.preId
    ensures m.preId.None? ==> ApplyTo(m, v) == Outcome(v.(pre := "0"), Ok(()))
    ensures m.preId.Some? && ValidPrerelease(m.preId.value) ==>
      ApplyTo(m, v) == Outcome(v.(pre := m.preId.value + ".0"), Ok(()))
    ensures m.preId.Some? && !ValidPrerelease(m.preId.value) ==>
      ApplyTo(m, v) == Outcome(v, Err(InvalidPrerelease))
  {
    assert ApplyTo(m, v) == SetPrerelease(v, BuildPrerelease(m.preId, 0));
    assert Decimal(0) == "0";
  }

  /** `PreRelease` on a tag it cannot decompose fails and changes nothing. */
  lemma PreReleaseUnsupported(m: VersionModifier, v: Version)
    requires m.kind == PreRelease && !IsRelease(v) && ParsePrerelease(v.pre).Err?
    ensures ApplyTo(m, v) == Outcome(v, Err(UnsupportedScheme))
  {
  }

  /** A composed train `<label>.<n>` (or a bare `<n>`) advances to counter
      `n + 1` under its own label. */
  lemma PreReleaseAdvancesCounter(preId: Option<string>, n: u64, v: Version)
    requires preId.Some? ==> ValidIdentifier(preId.value) && '.' !in preId.value
    requires n < U64_MAX && v.pre == PrereleaseText(preId, n)
    ensures NoOverflow(VersionModifier(PreRelease, preId), v)
    ensures ApplyTo(VersionModifier(PreRelease, preId), v)
         == Outcome(v.(pre := PrereleaseText(preId, n + 1)), Ok(()))
  {
    ParseComposed(preId, n);
    PrereleaseTextValid(preId, n);
    if preId.Some? {
      DotFreePrerelease(preId.value);
    }
    PreReleaseContinues(VersionModifier(PreRelease, preId), v);
  }

  /** A composed train under one label restarts at 0 under another. */
  lemma PreReleaseRestartsTrain(oldId: Option<string>, n: u64, preId: Option<string>, v: Version)
    requires oldId.Some? ==> '.' !in oldId.value
    requires v.pre == PrereleaseText(oldId, n) && oldId != preId
    requires preId.Some? ==> ValidPrerelease(preId.value)
    ensures NoOverflow(VersionModifier(PreRelease, preId), v)
    ensures ApplyTo(VersionModifier(PreRelease, preId), v)
         == Outcome(v.(pre := PrereleaseText(preId, 0)), Ok(()))
  {
    ParseComposed(oldId, n);
    PreReleaseSwitches(VersionModifier(PreRelease, preId), v);
  }

  /** A tag with a second dot, such as `alpha.beta.1`, is rejected by
      `PreRelease` whatever the label, and the version is left alone. */
  lemma SecondDotRejected(a: string, b: string, preId: Option<string>, v: Version)
    requires '.' !in a && '.' in b && v.pre == a + "." + b
    ensures NoOverflow(VersionModifier(PreRelease, preId), v)
    ensures ApplyTo(VersionModifier(PreRelease, preId), v) == Outcome(v, Err(UnsupportedScheme))
  {
    DottedParse(a, b);
  }

  /** A label with a dot in it starts a train that the next `PreRelease`
      under the same label rejects. */
  lemma DottedLabelStalls(name: string, v: Version)
    requires ValidPrerelease(name) && '.' in name && IsRelease(v) && v.patch < U64_MAX
    ensures var m := VersionModifier(PreRelease, Some(name));
      var o := ApplyTo(m, v);
      && o == Outcome(BumpedPatch(v).(pre := name + ".0"), Ok(()))
      && NoOverflow(m, o.version)
      && ApplyTo(m, o.version) == Outcome(o.version, Err(UnsupportedScheme))
  {
    var m := VersionModifier(PreRelease, Some(name));
    PreReleaseFromRelease(m, v);
    var w := BumpedPatch(v).(pre := name + ".0");
    var (a, b) := SplitOnce(name).value;
    assert name + ".0" == a + "." + (b + ".0");
    SecondDotRejected(a, b + ".0", Some(name), w);
  }

  // ---------------------------------------------------------------------
  // Across all directives
  // ---------------------------------------------------------------------

  /** No directive but `Replace` moves `major.minor.patch` backwards; the
      three pre-bumps always move it forwards, and build metadata is either
      kept or cleared. */
  lemma BumpNeverLowersCore(m: VersionModifier, v: Version)
    requires !m.kind.Replace? && NoOverflow(m, v)
    ensures !CoreLess(ApplyTo(m, v).version, v)
    ensures m.kind == PreMajor || m.kind == PreMinor || m.kind == PrePatch ==>
      CoreLess(v, ApplyTo(m, v).version)
    ensures ApplyTo(m, v).version.build in {v.build, ""}
  {
    var w := ApplyTo(m, v).version;
    match m.kind
    case PreRelease =>
      if IsRelease(v) {
        assert CoreLess(v, BumpedPatch(v));
        assert w.major == v.major && w.minor == v.minor && w.patch == v.patch + 1;
      } else {
        assert w.major == v.major && w.minor == v.minor && w.patch == v.patch;
      }
    case _ =>
  }

  /** The four pre-release directives, when they succeed, leave a version
      carrying a valid, non-empty tag. */
  lemma PreDirectivesYieldPrerelease(m: VersionModifier, v: Version)
    requires m.kind in {PreMajor, PreMinor, PrePatch, PreRelease} && NoOverflow(m, v)
    requires ApplyTo(m, v).result.Ok?
    ensures !IsRelease(ApplyTo(m, v).version) && ValidPrerelease(ApplyTo(m, v).version.pre)
  {
    if m.kind == PreRelease {
      var w := if IsRelease(v) then BumpedPatch(v) else v;
      var (id, numeric) := ParsePrerelease(w.pre).value;
      var p := if id == m.preId then BuildPrerelease(id, if numeric.Some? then numeric.value + 1 else 0)
               else BuildPrerelease(m.preId, 0);
      assert ApplyTo(m, v) == SetPrerelease(w, p);
    }
  }

  /** The only failures are a bad tag to compose or one to decompose; the
      release-line directives and `Replace` never fail. */
  lemma FailuresComeFromTags(m: VersionModifier, v: Version)
    requires NoOverflow(m, v)
    ensures ApplyTo(m, v).result.Err? ==>
      ApplyTo(m, v).result.error in {InvalidPrerelease, UnsupportedScheme}
    ensures m.kind.Replace? || m.kind in {Major, Minor, Patch} ==> ApplyTo(m, v).result.Ok?
  {
  }

  /** A valid version (and a valid replacement) stays valid under every
      directive, even when the call fails half-way. */
  lemma ApplyPreservesValidity(m: VersionModifier, v: Version)
    requires NoOverflow(m, v) && ValidVersion(v)
    requires m.kind.Replace? ==> ValidVersion(m.kind.replacement)
    ensures ValidVersion(ApplyTo(m, v).version)
  {
  }

  /** Errors are not atomic: a failing pre-bump has already incremented. */
  lemma NotAtomicOnError()
    ensures ApplyTo(VersionModifier(PreMajor, Some("")), Version(0, 1, 0, "", ""))
         == Outcome(Version(1, 0, 0, "", ""), Err(InvalidPrerelease))
  {
  }
}
