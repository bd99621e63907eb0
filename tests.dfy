/** The repository's unit tests of `VersionModifier::apply`, one lemma each,
    and a few further scenarios at the edges of the pre-release scheme. */
module ModifierTests {
  import opened Wrappers
  import opened Semver
  import opened Primitives
  import opened Modifier
  import opened ModifierProperties

  /** `MAJOR.MINOR.PATCH[-pre]` without build metadata. */
  function V(major: u64, minor: u64, patch: u64, pre: string): Version
  {
    Version(major, minor, patch, pre, "")
  }

  function Bump(kind: BumpKind, preId: Option<string>, v: Version): Outcome
    requires NoOverflow(VersionModifier(kind, preId), v)
  {
    ApplyTo(VersionModifier(kind, preId), v)
  }

  // What the composer and the decomposer make of the tags used below.

  lemma ParseRc0()
    ensures ParsePrerelease("rc.0") == Ok((Some("rc"), Some(0)))
  {
    assert "rc.0" == PrereleaseText(Some("rc"), 0);
    ParseComposed(Some("rc"), 0);
  }

  lemma ParseRc1()
    ensures ParsePrerelease("rc.1") == Ok((Some("rc"), Some(1)))
  {
    assert "rc.1" == PrereleaseText(Some("rc"), 1);
    ParseComposed(Some("rc"), 1);
  }

  lemma BuildRc0()
    ensures BuildPrerelease(Some("rc"), 0) == Ok("rc.0")
  {
    assert "rc.0" == PrereleaseText(Some("rc"), 0);
    DotFreePrerelease("rc");
  }

  lemma BuildRc1()
    ensures BuildPrerelease(Some("rc"), 1) == Ok("rc.1")
  {
    assert "rc.1" == PrereleaseText(Some("rc"), 1);
    DotFreePrerelease("rc");
  }

  lemma BuildRc2()
    ensures BuildPrerelease(Some("rc"), 2) == Ok("rc.2")
  {
    assert "rc.2" == PrereleaseText(Some("rc"), 2);
    DotFreePrerelease("rc");
  }

  lemma BuildAlphaBeta0()
    ensures BuildPrerelease(Some("alpha.beta"), 0) == Ok("alpha.beta.0")
  {
    assert "alpha.beta" == "alpha" + "." + "beta";
    assert "alpha.beta.0" == PrereleaseText(Some("alpha.beta"), 0);
    DotFreePrerelease("alpha");
    DotFreePrerelease("beta");
    AppendIdentifier("alpha", "beta");
  }

  lemma ParseAlphaBeta0()
    ensures ParsePrerelease("alpha.beta.0") == Err(UnsupportedScheme)
  {
    assert "alpha.beta.0" == "alpha" + "." + "beta.0";
    DottedParse("alpha", "beta.0");
  }

  lemma ParseAlphaBeta1()
    ensures ParsePrerelease("alpha.beta.1") == Err(UnsupportedScheme)
  {
    assert "alpha.beta.1" == "alpha" + "." + "beta.1";
    DottedParse("alpha", "beta.1");
  }

  lemma TestReplace()
    ensures Bump(Replace(V(0, 2, 0, "")), None, V(0, 1, 0, "")) == Outcome(V(0, 2, 0, ""), Ok(()))
  {
  }

  lemma TestPreMajor()
    ensures Bump(PreMajor, None, V(0, 1, 0, "")) == Outcome(V(1, 0, 0, "0"), Ok(()))
  {
  }

  lemma TestMajor()
    ensures Bump(Major, None, V(0, 1, 0, "")) == Outcome(V(1, 0, 0, ""), Ok(()))
  {
  }

  lemma TestMajorPrereleased()
    ensures Bump(Major, None, V(1, 0, 0, "rc.0")) == Outcome(V(1, 0, 0, ""), Ok(()))
  {
  }

  lemma TestPreMinor()
    ensures Bump(PreMinor, None, V(0, 1, 0, "")) == Outcome(V(0, 2, 0, "0"), Ok(()))
  {
  }

  lemma TestMinor()
    ensures Bump(Minor, None, V(0, 1, 0, "")) == Outcome(V(0, 2, 0, ""), Ok(()))
  {
  }

  lemma TestMinorPrereleased()
    ensures Bump(Minor, None, V(0, 1, 0, "rc.0")) == Outcome(V(0, 1, 0, ""), Ok(()))
  {
  }

  lemma TestPrePatch()
    ensures Bump(PrePatch, None, V(0, 1, 0, "")) == Outcome(V(0, 1, 1, "0"), Ok(()))
  {
  }

  lemma TestPatch()
    ensures Bump(Patch, None, V(0, 1, 0, "")) == Outcome(V(0, 1, 1, ""), Ok(()))
  {
  }

  lemma TestPatchPrereleased()
    ensures Bump(Patch, None, V(0, 1, 1, "rc.0")) == Outcome(V(0, 1, 1, ""), Ok(()))
  {
  }

  lemma TestPreRelease()
    ensures Bump(PreRelease, None, V(0, 1, 0, "")) == Outcome(V(0, 1, 1, "0"), Ok(()))
  {
  }

  lemma TestPreReleasePrereleased()
    ensures Bump(PreRelease, None, V(0, 1, 0, "0")) == Outcome(V(0, 1, 0, "1"), Ok(()))
  {
    PreReleaseAdvancesCounter(None, 0, V(0, 1, 0, "0"));
  }

  lemma TestPreReleaseRestart()
    ensures Bump(PreRelease, Some("rc"), V(0, 1, 0, "1")) == Outcome(V(0, 1, 0, "rc.0"), Ok(()))
  {
    PreReleaseRestartsTrain(None, 1, Some("rc"), V(0, 1, 0, "1"));
  }

  lemma TestPreReleaseWithId()
    ensures Bump(PreRelease, Some("rc"), V(0, 1, 0, "")) == Outcome(V(0, 1, 1, "rc.0"), Ok(()))
  {
  }

  /** `0.1.0-rc.0` becomes `0.1.0-rc.1`. */
  lemma TestPreReleaseWithIdPrereleased()
    ensures Bump(PreRelease, Some("rc"), V(0, 1, 0, "rc.0")) == Outcome(V(0, 1, 0, "rc.1"), Ok(()))
  {
    ParseRc0();
    BuildRc1();
  }

  lemma TestPreReleaseWithIdRestart()
    ensures Bump(PreRelease, Some("rc"), V(0, 1, 0, "alpha.1")) == Outcome(V(0, 1, 0, "rc.0"), Ok(()))
  {
    assert "alpha.1" == PrereleaseText(Some("alpha"), 1);
    ParseComposed(Some("alpha"), 1);
    BuildRc0();
  }

  /** A train continues past counter 1. */
  lemma TestPreReleaseContinuesAtTwo()
    ensures Bump(PreRelease, Some("rc"), V(0, 1, 0, "rc.1")) == Outcome(V(0, 1, 0, "rc.2"), Ok(()))
  {
    ParseRc1();
    BuildRc2();
  }

  /** A bare label is read as a label without a counter and continues at 0. */
  lemma TestBareLabelContinues()
    ensures Bump(PreRelease, Some("beta"), V(0, 1, 0, "beta")) == Outcome(V(0, 1, 0, "beta.0"), Ok(()))
  {
  }

  /** A non-numeric segment after the first dot is rejected. */
  lemma TestNonNumericCounter()
    ensures Bump(PreRelease, Some("rc"), V(0, 1, 0, "rc.x")) == Outcome(V(0, 1, 0, "rc.x"), Err(UnsupportedScheme))
  {
  }

  /** Only the first dot splits, so a two-part label is rejected too. */
  lemma TestTwoDots()
    ensures Bump(PreRelease, None, V(0, 1, 0, "alpha.beta.1"))
         == Outcome(V(0, 1, 0, "alpha.beta.1"), Err(UnsupportedScheme))
  {
    TwoDotsAt(V(0, 1, 0, "alpha.beta.1"));
  }

  // The version is a parameter fixed by `requires` rather than a literal in
  // the goal: this keeps the verifier from unfolding the long tag literal.
  lemma TwoDotsAt(v: Version)
    requires v == V(0, 1, 0, "alpha.beta.1")
    ensures NoOverflow(VersionModifier(PreRelease, None), v)
    ensures ApplyTo(VersionModifier(PreRelease, None), v) == Outcome(v, Err(UnsupportedScheme))
  {
    ParseAlphaBeta1();
    PreReleaseUnsupported(VersionModifier(PreRelease, None), v);
  }

  /** A dotted label starts a train that the next `PreRelease` cannot continue. */
  lemma TestDottedLabel()
    ensures Bump(PreRelease, Some("alpha.beta"), V(0, 1, 0, ""))
         == Outcome(V(0, 1, 1, "alpha.beta.0"), Ok(()))
    ensures Bump(PreRelease, Some("alpha.beta"), V(0, 1, 1, "alpha.beta.0"))
         == Outcome(V(0, 1, 1, "alpha.beta.0"), Err(UnsupportedScheme))
  {
    DottedLabelStartsAt(V(0, 1, 0, ""), V(0, 1, 1, "alpha.beta.0"));
    DottedLabelStallsAt(V(0, 1, 1, "alpha.beta.0"));
  }

  // The version is a parameter fixed by `requires` rather than a literal in
  // the goal: this keeps the verifier from unfolding the long tag literal.
  lemma DottedLabelStartsAt(v: Version, w: Version)
    requires v == V(0, 1, 0, "") && w == V(0, 1, 1, "alpha.beta.0")
    ensures NoOverflow(VersionModifier(PreRelease, Some("alpha.beta")), v)
    ensures ApplyTo(VersionModifier(PreRelease, Some("alpha.beta")), v) == Outcome(w, Ok(()))
  {
    BuildAlphaBeta0();
    PreReleaseFromRelease(VersionModifier(PreRelease, Some("alpha.beta")), v);
  }

  // The version is a parameter fixed by `requires` rather than a literal in
  // the goal: this keeps the verifier from unfolding the long tag literal.
  lemma DottedLabelStallsAt(w: Version)
    requires w == V(0, 1, 1, "alpha.beta.0")
    ensures NoOverflow(VersionModifier(PreRelease, Some("alpha.beta")), w)
    ensures ApplyTo(VersionModifier(PreRelease, Some("alpha.beta")), w) == Outcome(w, Err(UnsupportedScheme))
  {
    ParseAlphaBeta0();
    PreReleaseUnsupported(VersionModifier(PreRelease, Some("alpha.beta")), w);
  }

  /** Build metadata is kept when a pre-release is promoted, cleared by an increment. */
  lemma TestBuildMetadata()
    ensures Bump(Major, None, Version(1, 0, 0, "rc.0", "b7")) == Outcome(Version(1, 0, 0, "", "b7"), Ok(()))
    ensures Bump(Major, None, Version(1, 0, 0, "", "b7")) == Outcome(Version(2, 0, 0, "", ""), Ok(()))
  {
  }
}
