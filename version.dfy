/** The three in-place increments of a version (major, minor, patch), each of
    which also clears the pre-release tag and the build metadata. */
module VersionExt {
  import opened Primitives
  import opened Semver

  /** The version `increment_major` leaves behind. */
  function BumpedMajor(v: Version): (r: Version)
    requires v.major < U64_MAX
    ensures r.major == v.major + 1 && r.minor == 0 && r.patch == 0
    ensures IsRelease(r) && r.build == ""
    ensures CoreLess(v, r)
  {
    Version(v.major + 1, 0, 0, "", "")
  }

  /** The version `increment_minor` leaves behind. */
  function BumpedMinor(v: Version): (r: Version)
    requires v.minor < U64_MAX
    ensures r.major == v.major && r.minor == v.minor + 1 && r.patch == 0
    ensures IsRelease(r) && r.build == ""
    ensures CoreLess(v, r)
  {
    Version(v.major, v.minor + 1, 0, "", "")
  }

  /** The version `increment_patch` leaves behind. */
  function BumpedPatch(v: Version): (r: Version)
    requires v.patch < U64_MAX
    ensures r.major == v.major && r.minor == v.minor && r.patch == v.patch + 1
    ensures IsRelease(r) && r.build == ""
    ensures CoreLess(v, r)
  {
    Version(v.major, v.minor, v.patch + 1, "", "")
  }

  /** A `semver::Version` held by mutable reference: the five fields the
      modifier assigns in place. */
  class MutableVersion {
    var major: u64
    var minor: u64
    var patch: u64
    var pre: string
    var build: string

    /** The value the fields currently hold. */
    function Value(): Version
      reads this
    {
      Version(major, minor, patch, pre, build)
    }

    constructor (v: Version)
      ensures Value() == v
    {
      major, minor, patch, pre, build := v.major, v.minor, v.patch, v.pre, v.build;
    }

    /** `*version = replacement.clone()`. */
    method Assign(v: Version)
      modifies this
      ensures Value() == v
    {
      major, minor, patch, pre, build := v.major, v.minor, v.patch, v.pre, v.build;
    }

    method IncrementMajor()
      requires major < U64_MAX
      modifies this
      ensures Value() == BumpedMajor(old(Value()))
    {
      major := major + 1;
      minor := 0;
      patch := 0;
      pre := "";
      build := "";
    }

    method IncrementMinor()
      requires minor < U64_MAX
      modifies this
      ensures Value() == BumpedMinor(old(Value()))
    {
      minor := minor + 1;
      patch := 0;
      pre := "";
      build := "";
    }

    method IncrementPatch()
      requires patch < U64_MAX
      modifies this
      ensures Value() == BumpedPatch(old(Value()))
    {
      patch := patch + 1;
      pre := "";
      build := "";
    }
  }
}
