# bumpit version modifier, in Dafny

This project models the version modification engine of `bumpit`, a cargo
version bumper. The engine takes a semantic version
`MAJOR.MINOR.PATCH[-pre][+build]` and a bump directive, and rewrites the
version in place. The directives are: `Replace` with a given version,
`major`, `minor`, `patch`, their pre-release forms `premajor`, `preminor` and
`prepatch`, and `prerelease`. An optional pre-release label (such as `rc`)
goes with the directive. The model covers five parts:

- the directive parser `BumpKind::from_str`;
- the bump `VersionModifier::apply`;
- the pre-release composer `build_prerelease`, which formats `<label>.<n>` or
  `<n>` and validates it;
- the pre-release decomposer `parse_prerelease`, which splits a tag into a
  label and a counter;
- the increments `increment_major`, `increment_minor` and `increment_patch`.

Files and modules:

- `wrappers.dfy` (`Wrappers`): `Option` and `Result`.
- `primitives.dfy` (`Primitives`): `u64` as a subset type. It also models the
  three standard-library routines the engine leans on: `str::split_once('.')`,
  `u64::from_str` and the decimal printing of a `u64`.
- `semver.dfy` (`Semver`): the `Version` record. It also holds identifier
  validity, written from section 9 of Semantic Versioning 2.0.0. That is the
  check `semver::Prerelease::new` makes.
- `version.dfy` (`VersionExt`): the increments. Each is a function on values
  (`BumpedMajor`, …). The class `MutableVersion` holds the five fields, and
  its methods (`IncrementMajor`, …) assign those fields in place. Each method
  is proved against its function.
- `modifier.dfy` (`Modifier`): `BumpKind`, `FromStr`, `BuildPrerelease`,
  `ParsePrerelease`, the specification function `ApplyTo` and the in-place
  method `VersionModifier.Apply`. `ApplyTo` returns the new version together
  with the result, because a failing call can already have changed the
  version. `Apply` mirrors `apply` branch by branch on a `MutableVersion`,
  and its `ensures` ties the new fields and the result to `ApplyTo`.
- `properties.dfy` (`ModifierProperties`): what each directive does, stated
  over all inputs. It also proves the round trips between the composer and
  the decomposer.
- `tests.dfy` (`ModifierTests`): the repository's sixteen unit tests of
  `apply`, one lemma each. A few further scenarios sit at the edges of the
  pre-release scheme.

Integer overflow: the increments and the counter's `n + 1` are `u64`
additions. The predicate `Modifier.NoOverflow` states that none of them
overflows, and it is a precondition of `ApplyTo` and `Apply`.

Two behaviours of the code that a reader might not expect:

- **A failing bump is not atomic.** The `PreMajor`, `PreMinor` and
  `PrePatch` branches increment before `build_prerelease` can fail
  (`src/modifier.rs:53-54`, `64-65`, `75-76`). A failing call returns with
  the version already incremented and its tag empty. The same holds for
  `PreRelease` on a release: the patch is bumped before the tag is parsed and
  built (`src/modifier.rs:86-95`). `ModifierProperties.PreBump`,
  `ModifierProperties.PreReleaseFromRelease` and
  `ModifierProperties.NotAtomicOnError` state this.
- **A bare label continues at 0.** A bare label such as `beta` decodes to a
  label without a counter (`src/modifier.rs:119-120`). A matching
  `PreRelease` then yields `beta.0` (`src/modifier.rs:90-92`).
  `ModifierTests.TestBareLabelContinues` shows it.

## Model

| member | source | states |
|---|---|---|
| Primitives.IndexOfDot | src/modifier.rs:112 | the result is absent exactly when the text has no dot; otherwise it is the position of the first dot |
| Primitives.SplitOnce | src/modifier.rs:112 | `split_once('.')`: absent exactly when there is no dot; otherwise the text is `a + "." + b` with `a` dot-free, so the split is at the first dot |
| Primitives.SplitOnceOfJoin | src/modifier.rs:112 | splitting `a + "." + b` with a dot-free `a` gives back `(a, b)`, whatever `b` holds |
| Primitives.ParseU64 | src/modifier.rs:114-117 | `u64::from_str`: success needs a text of one optional leading `+` followed by at least one digit; a digit text, with or without the `+`, parses exactly when its value fits in a u64, and then to that value |
| Primitives.Decimal | src/modifier.rs:104-106 | the decimal printing of a number is non-empty digits with that value, with a leading `0` only for zero itself |
| Primitives.ParseDecimal | src/modifier.rs:106-117 | printing a u64 and parsing it back gives the same number |
| Primitives.DecimalOfDigits | src/modifier.rs:104-114 | a digit string without a leading zero is the printing of its own value |
| Semver.ValidPrerelease | src/modifier.rs:108 | the validity check of `semver::Prerelease::new`, per section 9 of Semantic Versioning 2.0.0; a valid tag is non-empty |
| Semver.DotFreePrerelease | src/modifier.rs:108 | a tag without a dot is valid exactly when it is one valid identifier |
| Semver.SplitValidPrerelease | src/modifier.rs:108-112 | splitting a valid tag at its first dot gives a valid identifier and a valid tag |
| Semver.DecimalIsIdentifier | src/modifier.rs:104-106 | a printed counter is a valid, dot-free identifier |
| Semver.AppendIdentifier | src/modifier.rs:104-108 | `<label>.<identifier>` is valid exactly when the label is |
| VersionExt.BumpedMajor | src/version.rs:12-18 | major + 1, minor and patch 0, tag and build metadata empty; the core triple strictly increases |
| VersionExt.BumpedMinor | src/version.rs:20-25 | major kept, minor + 1, patch 0, tag and build metadata empty; the core triple strictly increases |
| VersionExt.BumpedPatch | src/version.rs:27-31 | major and minor kept, patch + 1, tag and build metadata empty; the core triple strictly increases |
| VersionExt.MutableVersion.constructor | src/modifier.rs:47 | the object holds the given version |
| VersionExt.MutableVersion.Assign | src/modifier.rs:50 | after `*version = replacement` the object holds the replacement |
| VersionExt.MutableVersion.IncrementMajor | src/version.rs:12-18 | the fields, updated in place, hold `BumpedMajor` of the old value |
| VersionExt.MutableVersion.IncrementMinor | src/version.rs:20-25 | the fields, updated in place, hold `BumpedMinor` of the old value |
| VersionExt.MutableVersion.IncrementPatch | src/version.rs:27-31 | the fields, updated in place, hold `BumpedPatch` of the old value |
| Modifier.FromStr | src/modifier.rs:20-34 | each of the seven case-sensitive keywords gives its directive; any other text gives `Replace` of the parsed version when the version parser accepts it and the invalid-version error otherwise |
| Modifier.FromStrKeyword | src/modifier.rs:22-30 | parsing a keyword's literal gives that keyword's directive, whatever the version parser does |
| Modifier.BuildPrerelease | src/modifier.rs:102-109 | succeeds exactly when there is no label or the label is itself a valid tag; the tag is `<label>.<n>` or `<n>` and is valid; a failure is the invalid-pre-release error |
| Modifier.PrereleaseTextValid | src/modifier.rs:103-108 | the formatted tag is valid exactly when there is no label or the label is valid; the counter never makes it invalid |
| Modifier.ParsePrerelease | src/modifier.rs:111-124 | fails only on a tag with a dot, with the unsupported-scheme error; a dotted tag decodes to both a label and a counter; a decoded label has no dot; `(None, None)` exactly for the empty tag |
| Modifier.PrereleaseText | src/modifier.rs:103-107 | the text `build_prerelease` formats before validating it: `<label>.<n>`, or the printed counter alone; no contract of its own, `Modifier.PrereleaseTextValid` and `ModifierProperties.ParseComposed` state what it yields |
| Modifier.SetPrerelease | src/modifier.rs:54-94 | `version.pre = p?`: stores a built tag, or stops with its error and leaves the version as the branch has already changed it; no contract of its own, used by `Modifier.ApplyTo` |
| Modifier.CounterBelowMax | src/modifier.rs:89-92 | the counter a `PreRelease` bump would continue under the same label is below `u64::MAX`, so `n + 1` does not overflow |
| Modifier.NoOverflow | src/modifier.rs:52-96 | no `+= 1` of the chosen directive overflows a u64: the field an increment bumps is below `u64::MAX` (src/version.rs:13, 21, 28) and so is a continued counter |
| Modifier.ApplyTo | src/modifier.rs:47-99 | the value-level model of `apply`, branch by branch, returning the new version with the result; no contract of its own, the `ModifierProperties` lemmas describe it directive by directive and `Modifier.VersionModifier.Apply` is proved equal to it |
| Modifier.VersionModifier.Apply | src/modifier.rs:47-99 | rewrites the version in place to the new version `ApplyTo` gives, and returns the result `ApplyTo` gives |
| ModifierProperties.DotFreeParse | src/modifier.rs:117-123 | a dot-free tag decodes to `(None, None)` when empty, to `(None, Some(n))` when it parses as a u64, and to `(Some(tag), None)` otherwise |
| ModifierProperties.DottedParse | src/modifier.rs:112-116 | `a.b` with a dot-free `a` decodes to `(Some(a), Some(n))` when `b` parses as a u64 `n`, and fails with the unsupported-scheme error otherwise |
| ModifierProperties.ParseComposed | src/modifier.rs:102-118 | decomposing the text of `<label>.<n>` or `<n>` gives back the label and `n`, for any label without a dot |
| ModifierProperties.ParseBuilt | src/modifier.rs:102-124 | decomposing what `build_prerelease` returns gives back its label and counter, for a label without a dot |
| ModifierProperties.NumericIdentifierPrints | src/modifier.rs:104-114 | a valid identifier that parses as a u64 prints back as itself |
| ModifierProperties.ParseRecompose | src/modifier.rs:111-124 | decomposing a valid tag loses nothing: its parts print back as the tag |
| ModifierProperties.DottedLabelNeverMatches | src/modifier.rs:112-113 | a label with a dot in it never equals a decoded label |
| ModifierProperties.ReplaceYieldsTarget | src/modifier.rs:49-51 | `Replace(r)` yields `r` and succeeds, whatever the version and the label |
| ModifierProperties.ReleaseLineOnRelease | src/modifier.rs:56-80 | on a release, `Major`, `Minor` and `Patch` are the matching increment and succeed |
| ModifierProperties.ReleaseLineOnPrerelease | src/modifier.rs:59-83 | on a pre-release, `Major`, `Minor` and `Patch` succeed and only clear the tag: numbers and build metadata are unchanged |
| ModifierProperties.PreBumpBase | src/modifier.rs:53-75 | the increment a pre-bump makes is a release whose core triple is strictly above the old one, with no build metadata |
| ModifierProperties.PreBump | src/modifier.rs:52-77 | the pre-bumps increment, then set the tag to `0` with no label or `<label>.0` with a valid label; with an invalid label the call fails and the version stays incremented with an empty tag |
| ModifierProperties.PreReleaseFromRelease | src/modifier.rs:85-95 | `PreRelease` on a release bumps the patch, then starts a train at 0 (`0` or `<label>.0`); an invalid label fails with the patch already bumped |
| ModifierProperties.PreReleaseContinues | src/modifier.rs:89-92 | on a valid pre-release whose decoded label equals the supplied one, the tag becomes that label with counter + 1 (0 when there was none); numbers and build metadata are kept and the call succeeds |
| ModifierProperties.PreReleaseSwitches | src/modifier.rs:89-95 | on a pre-release under another label, the tag becomes the supplied label at counter 0; an invalid label fails and changes nothing |
| ModifierProperties.PreReleaseUnsupported | src/modifier.rs:85-89 | a tag the decomposer rejects makes `PreRelease` fail with the unsupported-scheme error and leaves the version alone |
| ModifierProperties.PreReleaseAdvancesCounter | src/modifier.rs:89-92 | a train `<label>.<n>` or `<n>` under its own label advances to `n + 1` |
| ModifierProperties.PreReleaseRestartsTrain | src/modifier.rs:89-95 | a train under one label restarts at 0 under a different valid label |
| ModifierProperties.SecondDotRejected | src/modifier.rs:112-115 | a tag with a second dot, such as `alpha.beta.1`, makes `PreRelease` fail whatever the label, and the version is left alone |
| ModifierProperties.DottedLabelStalls | src/modifier.rs:85-95 | a valid dotted label starts a train `<label>.0` on a release, which the next `PreRelease` under the same label then rejects |
| ModifierProperties.BumpNeverLowersCore | src/modifier.rs:52-96 | no directive but `Replace` lowers the core triple; the pre-bumps raise it; build metadata is either kept or cleared |
| ModifierProperties.PreDirectivesYieldPrerelease | src/modifier.rs:52-96 | when the four pre-release directives succeed, the version carries a valid, non-empty tag |
| ModifierProperties.FailuresComeFromTags | src/modifier.rs:47-99 | every failure is a tag error from the composer or the decomposer; `Replace`, `Major`, `Minor` and `Patch` never fail |
| ModifierProperties.ApplyPreservesValidity | src/modifier.rs:47-99 | a valid version, with a valid replacement, stays valid under every directive, even when the call fails part-way |
| ModifierProperties.NotAtomicOnError | src/modifier.rs:52-54 | `premajor` with an empty label on `0.1.0` fails and leaves `1.0.0` behind |
| ModifierTests.TestReplace | src/modifier.rs:130-137 | `0.1.0` replaced by `0.2.0` is `0.2.0` |
| ModifierTests.TestPreMajor | src/modifier.rs:139-145 | `premajor` on `0.1.0` gives `1.0.0-0` |
| ModifierTests.TestMajor | src/modifier.rs:147-153 | `major` on `0.1.0` gives `1.0.0` |
| ModifierTests.TestMajorPrereleased | src/modifier.rs:155-161 | `major` on `1.0.0-rc.0` gives `1.0.0` |
| ModifierTests.TestPreMinor | src/modifier.rs:163-169 | `preminor` on `0.1.0` gives `0.2.0-0` |
| ModifierTests.TestMinor | src/modifier.rs:171-177 | `minor` on `0.1.0` gives `0.2.0` |
| ModifierTests.TestMinorPrereleased | src/modifier.rs:179-185 | `minor` on `0.1.0-rc.0` gives `0.1.0` |
| ModifierTests.TestPrePatch | src/modifier.rs:187-193 | `prepatch` on `0.1.0` gives `0.1.1-0` |
| ModifierTests.TestPatch | src/modifier.rs:195-201 | `patch` on `0.1.0` gives `0.1.1` |
| ModifierTests.TestPatchPrereleased | src/modifier.rs:203-209 | `patch` on `0.1.1-rc.0` gives `0.1.1` |
| ModifierTests.TestPreRelease | src/modifier.rs:211-217 | `prerelease` on `0.1.0` gives `0.1.1-0` |
| ModifierTests.TestPreReleasePrereleased | src/modifier.rs:219-225 | `prerelease` on `0.1.0-0` gives `0.1.0-1` |
| ModifierTests.TestPreReleaseRestart | src/modifier.rs:227-233 | `prerelease` with `rc` on `0.1.0-1` gives `0.1.0-rc.0` |
| ModifierTests.TestPreReleaseWithId | src/modifier.rs:235-241 | `prerelease` with `rc` on `0.1.0` gives `0.1.1-rc.0` |
| ModifierTests.TestPreReleaseWithIdPrereleased | src/modifier.rs:243-249 | `prerelease` with `rc` on `0.1.0-rc.0` gives `0.1.0-rc.1` |
| ModifierTests.TestPreReleaseWithIdRestart | src/modifier.rs:251-257 | `prerelease` with `rc` on `0.1.0-alpha.1` gives `0.1.0-rc.0` |
| ModifierTests.TestPreReleaseContinuesAtTwo | src/modifier.rs:89-92 | `prerelease` with `rc` on `0.1.0-rc.1` gives `0.1.0-rc.2` |
| ModifierTests.TestBareLabelContinues | src/modifier.rs:119-120 | `prerelease` with `beta` on `0.1.0-beta` gives `0.1.0-beta.0` |
| ModifierTests.TestNonNumericCounter | src/modifier.rs:112-115 | `prerelease` with `rc` on `0.1.0-rc.x` fails with the unsupported-scheme error and leaves the version alone |
| ModifierTests.TestTwoDots | src/modifier.rs:112-115 | `prerelease` on `0.1.0-alpha.beta.1` fails with the unsupported-scheme error and leaves the version alone |
| ModifierTests.TestDottedLabel | src/modifier.rs:85-95 | `prerelease` with `alpha.beta` on `0.1.0` gives `0.1.1-alpha.beta.0`, and the next such bump fails on it |
| ModifierTests.TestBuildMetadata | src/modifier.rs:56-61 | `major` on `1.0.0-rc.0+b7` keeps the build metadata; `major` on `1.0.0+b7` clears it |

## Left out

- `semver::Version::parse` and its grammar are not part of this model. `Modifier.FromStr` takes the parser as a parameter `string -> Option<Version>`. A `Replace` directive carries a version as it is.
- Displaying a version as text is not part of this model. Versions are compared as records.
- The caller's steps are not modelled, because they are I/O and foreign libraries: `src/config.rs` (argument parsing, workspace lookup), `src/package.rs` (TOML reading and writing), and `src/main.rs`, `src/lib.rs` and `src/bin/` (orchestration and exit codes).
- Error messages and `anyhow` context chains are not modelled. Each error is one value of `Modifier.Error`.
- `VersionModifier::new` is the datatype constructor `Modifier.VersionModifier(kind, preId)`. It has nothing to state beyond storing its two fields.
- Modifier.VersionModifier.Apply: requires `NoOverflow` instead of modelling what a `u64` overflow does. In Rust, `+= 1` at `u64::MAX` panics in debug builds and wraps in release builds. The same precondition is on `Modifier.ApplyTo`, `VersionExt.BumpedMajor`, `VersionExt.BumpedMinor`, `VersionExt.BumpedPatch` and the `MutableVersion` increments.
- Build metadata is an opaque string whose validity is not checked. The engine only keeps it or clears it.
- SemVer precedence ordering is not modelled, because the engine never compares versions. `Semver.CoreLess` is only the lexicographic order of `(major, minor, patch)`.
- `Semver.ValidPrerelease` is written from section 9 of Semantic Versioning 2.0.0. It does not model the exact text `semver::Prerelease::new` accepts beyond that rule.
