/** The version modification engine: the bump directive, its parser, the
    pre-release composer and decomposer, and the bump itself, both as a
    specification function on values (`ApplyTo`) and as the in-place method
    it specifies (`VersionModifier.Apply`). */
module Modifier {
  import opened Wrappers
  import opened Primitives
  import opened Semver
  import opened VersionExt

  /** The three ways a bump can fail; each stands for one error context of
      the tool, its message text aside. */
  datatype Error =
    | InvalidVersion      // the directive is neither a keyword nor a version
    | InvalidPrerelease   // a composed pre-release tag is not valid
    | UnsupportedScheme   // the text after the first dot is not a u64

  /** The bump directive. */
  datatype BumpKind =
    | Replace(replacement: Version)
    | PreMajor
    | Major
    | PreMinor
    | Minor
    | PrePatch
    | Patch
    | PreRelease

  // ---------------------------------------------------------------------
  // Parsing a directive (`BumpKind::from_str`)
  // ---------------------------------------------------------------------

  /** The literal that names each keyword directive. */
  function Keyword(k: BumpKind): string
    requires !k.Replace?
  {
    match k
    case PreMajor => "premajor"
    case Major => "major"
    case PreMinor => "preminor"
    case Minor => "minor"
    case PrePatch => "prepatch"
    case Patch => "patch"
    case PreRelease => "prerelease"
  }

  predicate IsKeyword(s: string) {
    s == "premajor" || s == "major" || s == "preminor" || s == "minor"
    || s == "prepatch" || s == "patch" || s == "prerelease"
  }

  /** `BumpKind::from_str`. The seven keywords name their directives exactly
      (case-sensitive); any other text is handed to `parseVersion`, which
      stands for `semver::Version::parse`. */
  function FromStr(input: string, parseVersion: string -> Option<Version>): (r: Result<BumpKind, Error>)
    ensures IsKeyword(input) ==> r.Ok? && !r.value.Replace? && Keyword(r.value) == input
    ensures !IsKeyword(input) ==> (r.Ok? <==> parseVersion(input).Some?)
    ensures !IsKeyword(input) && r.Ok? ==> r.value == Replace(parseVersion(input).value)
    ensures r.Err? ==> r.error == InvalidVersion
  {
    match input
    case "premajor" => Ok(PreMajor)
    case "major" => Ok(Major)
    case "preminor" => Ok(PreMinor)
    case "minor" => Ok(Minor)
    case "prepatch" => Ok(PrePatch)
    case "patch" => Ok(Patch)
    case "prerelease" => Ok(PreRelease)
    case _ =>
      match parseVersion(input)
      case Some(v) => Ok(Replace(v))
      case None => Err(InvalidVersion)
  }

  /** Parsing the keyword of a directive gives that directive back, whatever
      the version parser would make of the text. */
  lemma FromStrKeyword(k: BumpKind, parseVersion: string -> Option<Version>)
    requires !k.Replace?
    ensures FromStr(Keyword(k), parseVersion) == Ok(k)
  {
  }

  // ---------------------------------------------------------------------
  // Composing and decomposing a pre-release tag
  // ---------------------------------------------------------------------

  /** The text `build_prerelease` formats: `<label>.<n>`, or `<n>` alone. */
  function PrereleaseText(preId: Option<string>, n: nat): string {
    match preId
    case Some(name) => name + "." + Decimal(n)
    case None => Decimal(n)
  }

  /** `build_prerelease`: format the tag and validate it. With no label it
      always succeeds; with a label it succeeds exactly when the label is
      itself a valid tag. */
  function BuildPrerelease(preId: Option<string>, n: u64): (r: Result<string, Error>)
    ensures r.Ok? <==> (preId.None? || ValidPrerelease(preId.value))
    ensures r.Ok? ==> r.value == PrereleaseText(preId, n) && ValidPrerelease(r.value)
    ensures r.Err? ==> r.error == InvalidPrerelease
  {
    var raw := PrereleaseText(preId, n);
    PrereleaseTextValid(preId, n);
    if ValidPrerelease(raw) then Ok(raw) else Err(InvalidPrerelease)
  }

  /** The formatted tag is valid exactly when there is no label or the label
      is itself a valid tag: the counter never makes it invalid. */
  lemma PrereleaseTextValid(preId: Option<string>, n: nat)
    ensures ValidPrerelease(PrereleaseText(preId, n)) <==> (preId.None? || ValidPrerelease(preId.value))
  {
    DecimalIsIdentifier(n);
    if preId.Some? {
      AppendIdentifier(preId.value, Decimal(n));
    } else {
      DotFreePrerelease(Decimal(n));
    }
  }

  /** `parse_prerelease`: split a tag into a label and a counter. It splits
      at the first dot only, so everything after that dot must be one u64. */
  function ParsePrerelease(pre: string): (r: Result<(Option<string>, Option<u64>), Error>)
    ensures r.Err? ==> r.error == UnsupportedScheme && '.' in pre
    ensures r.Ok? && '.' in pre ==> r.value.0.Some? && r.value.1.Some?
    ensures r.Ok? && r.value.0.Some? ==> '.' !in r.value.0.value
    ensures r == Ok((None, None)) <==> pre == ""
  {
    match SplitOnce(pre)
    case Some((id, numeric)) =>
      (match ParseU64(numeric)
       case Some(n) => Ok((Some(id), Some(n)))
       case None => Err(UnsupportedScheme))
    case None =>
      match ParseU64(pre)
      case Some(n) => Ok((None, Some(n)))
      case None => if pre != "" then Ok((Some(pre), None)) else Ok((None, None))
  }

  /** The tag a decomposition stands for. */
  function Recompose(parts: (Option<string>, Option<u64>)): string {
    match parts
    case (Some(name), Some(n)) => name + "." + Decimal(n)
    case (None, Some(n)) => Decimal(n)
    case (Some(name), None) => name
    case (None, None) => ""
  }

  // ---------------------------------------------------------------------
  // Applying a directive
  // ---------------------------------------------------------------------

  /** The new version after a call, and whether the call succeeded. On an
      error the version may already have been changed. */
  datatype Outcome = Outcome(version: Version, result: Result<(), Error>)

  /** A directive together with the optional pre-release label (`VersionModifier::new`). */
  datatype VersionModifier = VersionModifier(kind: BumpKind, preId: Option<string>) {

    /** `VersionModifier::apply`: rewrites `version` in place. */
    method Apply(version: MutableVersion) returns (result: Result<(), Error>)
      requires NoOverflow(this, version.Value())
      modifies version
      ensures version.Value() == ApplyTo(this, old(version.Value())).version
      ensures result == ApplyTo(this, old(version.Value())).result
    {
      match kind {
        case Replace(replacement) =>
          version.Assign(replacement);
        case PreMajor =>
          version.IncrementMajor();
          var p := BuildPrerelease(preId, 0);
          if p.Err? { return Err(p.error); }
          version.pre := p.value;
        case Major =>
          if version.pre == "" {
            version.IncrementMajor();
          } else {
            version.pre := "";
          }
        case PreMinor =>
          version.IncrementMinor();
          var p := BuildPrerelease(preId, 0);
          if p.Err? { return Err(p.error); }
          version.pre := p.value;
        case Minor =>
          if version.pre == "" {
            version.IncrementMinor();
          } else {
            version.pre := "";
          }
        case PrePatch =>
          version.IncrementPatch();
          var p := BuildPrerelease(preId, 0);
          if p.Err? { return Err(p.error); }
          version.pre := p.value;
        case Patch =>
          if version.pre == "" {
            version.IncrementPatch();
          } else {
            version.pre := "";
          }
        case PreRelease =>
          if version.pre == "" {
            version.IncrementPatch();
          }
          var parsed := ParsePrerelease(version.pre);
          if parsed.Err? { return Err(parsed.error); }
          var (id, numeric) := parsed.value;
          var p;
          if id == preId {
            p := BuildPrerelease(id, if numeric.Some? then numeric.value + 1 else 0);
          } else {
            p := BuildPrerelease(preId, 0);
          }
          if p.Err? { return Err(p.error); }
          version.pre := p.value;
      }
      return Ok(());
    }
  }

  /** The counter a `PreRelease` bump would continue is below `u64::MAX`. */
  predicate CounterBelowMax(pre: string, preId: Option<string>) {
    match ParsePrerelease(pre)
    case Ok((id, Some(n))) => id == preId ==> n < U64_MAX
    case _ => true
  }

  /** No `+= 1` of the bump overflows a u64 (Rust panics on that overflow). */
  predicate NoOverflow(m: VersionModifier, v: Version) {
    match m.kind
    case Replace(_) => true
    case PreMajor => v.major < U64_MAX
    case Major => v.pre != "" || v.major < U64_MAX
    case PreMinor => v.minor < U64_MAX
    case Minor => v.pre != "" || v.minor < U64_MAX
    case PrePatch => v.patch < U64_MAX
    case Patch => v.pre != "" || v.patch < U64_MAX
    case PreRelease => if v.pre == "" then v.patch < U64_MAX else CounterBelowMax(v.pre, m.preId)
  }

  /** `version.pre = p?`: store the tag, or stop with its error and leave
      `v` as it is. */
  function SetPrerelease(v: Version, p: Result<string, Error>): Outcome {
    match p
    case Ok(s) => Outcome(v.(pre := s), Ok(()))
    case Err(e) => Outcome(v, Err(e))
  }

  /** What `VersionModifier::apply` does to a version value. */
  function ApplyTo(m: VersionModifier, v: Version): Outcome
    requires NoOverflow(m, v)
  {
    match m.kind
    case Replace(r) => Outcome(r, Ok(()))
    case PreMajor => SetPrerelease(BumpedMajor(v), BuildPrerelease(m.preId, 0))
    case Major => Outcome(if IsRelease(v) then BumpedMajor(v) else v.(pre := ""), Ok(()))
    case PreMinor => SetPrerelease(BumpedMinor(v), BuildPrerelease(m.preId, 0))
    case Minor => Outcome(if IsRelease(v) then BumpedMinor(v) else v.(pre := ""), Ok(()))
    case PrePatch => SetPrerelease(BumpedPatch(v), BuildPrerelease(m.preId, 0))
    case Patch => Outcome(if IsRelease(v) then BumpedPatch(v) else v.(pre := ""), Ok(()))
    case PreRelease =>
      var w := if IsRelease(v) then BumpedPatch(v) else v;
      match ParsePrerelease(w.pre)
      case Err(e) => Outcome(w, Err(e))
      case Ok((id, numeric)) =>
        if id == m.preId then
          SetPrerelease(w, BuildPrerelease(id, if numeric.Some? then numeric.value + 1 else 0))
        else
          SetPrerelease(w, BuildPrerelease(m.preId, 0))
  }
}
