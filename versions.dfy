/**
 * Minecraft versions and their comparisons: the default methods of
 * `VersionComparable`, the `MinecraftVersion` value with its `parseRange`,
 * the `MinecraftVersions.of` factory and the release `Type` enum.
 *
 * The version ordering itself (FlexVer's `compare`) is not part of this
 * model: every comparison takes it as the parameter `cmp`, a function
 * returning a negative, zero or positive number.
 */
module Versions {
  import opened Java
  import opened Strings

  /** FlexVer's `compare(a, b)`: negative, zero or positive. */
  type Comparator = (string, string) -> int

  /** A Minecraft version (the record `MinecraftVersionImpl`): its version string. */
  datatype MinecraftVersion = MinecraftVersion(version: string)

  /** The version string that stands for "no bound" in a range. */
  const UNKNOWN_STRING: string := "unknown"

  /** `MinecraftVersions.UNKNOWN`. */
  const UNKNOWN: MinecraftVersion := MinecraftVersion(UNKNOWN_STRING)

  /**
   * `MinecraftVersions.B1_7_3`, the constant `of` returns for Beta 1.7.3
   * strings; its version string is defined outside this model.
   */
  const B1_7_3: MinecraftVersion

  /** The marker by which `MinecraftVersions.of` recognises Beta 1.7.3. */
  const BETA_1_7_3_MARKER: string := "(MC: 1.7.3)"

  // The `MinecraftVersions.Release` constants named by the packet tables and the
  // entrypoint loader; their version strings are defined outside this model.
  const V7_2: MinecraftVersion
  const V9: MinecraftVersion
  const V12: MinecraftVersion
  const V12_1: MinecraftVersion
  const V13: MinecraftVersion
  const V14: MinecraftVersion
  const V14_2: MinecraftVersion
  const V15: MinecraftVersion
  const V16: MinecraftVersion
  const V16_2: MinecraftVersion
  const V17: MinecraftVersion
  const V19: MinecraftVersion
  const V19_1: MinecraftVersion
  const V19_3: MinecraftVersion
  const V19_4: MinecraftVersion
  const V20_2: MinecraftVersion
  const V20_3: MinecraftVersion
  const V20_5: MinecraftVersion
  const V21_2: MinecraftVersion
  const V21_5: MinecraftVersion
  const V21_6: MinecraftVersion

  /**
   * The argument of an overloaded comparison: the `String` overload or the
   * overload taking another version. `None` stands for a null argument.
   */
  datatype Operand = Text(text: string) | Version(other: MinecraftVersion)

  /** The version string the comparison uses for an operand. */
  function VersionOf(o: Operand): string
  {
    match o
    case Text(s) => s
    case Version(v) => v.version
  }

  // ---------------------------------------------------------------- comparisons

  /** `compareTo(o)`. */
  function CompareTo(cmp: Comparator, self: MinecraftVersion, o: Option<MinecraftVersion>): (r: Except<int>)
    ensures r.Throw? <==> o.None?
    ensures r.Throw? ==> r.error == NullPointer("version cannot be null")
    ensures r.Ok? ==> r.value == cmp(self.version, o.value.version)
  {
    if o.None? then Throw(NullPointer("version cannot be null"))
    else Ok(cmp(self.version, o.value.version))
  }

  /** Shared null check of the one-argument comparisons. */
  function Compared(cmp: Comparator, self: MinecraftVersion, o: Option<Operand>): Except<int>
  {
    if o.None? then Throw(NullPointer("version cannot be null"))
    else Ok(cmp(self.version, VersionOf(o.value)))
  }

  /** `is(version)`: the versions compare equal. */
  function Is(cmp: Comparator, self: MinecraftVersion, o: Option<Operand>): (r: Except<bool>)
    ensures r.Throw? <==> o.None?
    ensures r.Ok? ==> (r.value <==> cmp(self.version, VersionOf(o.value)) == 0)
  {
    match Compared(cmp, self, o)
    case Ok(c) => Ok(c == 0)
    case Throw(e) => Throw(e)
  }

  /** `isNewerThan(version)`: strictly after. */
  function IsNewerThan(cmp: Comparator, self: MinecraftVersion, o: Option<Operand>): (r: Except<bool>)
    ensures r.Throw? <==> o.None?
    ensures r.Ok? ==> (r.value <==> cmp(self.version, VersionOf(o.value)) > 0)
  {
    match Compared(cmp, self, o)
    case Ok(c) => Ok(c > 0)
    case Throw(e) => Throw(e)
  }

  /** `isAtLeast(version)`: after or equal. */
  function IsAtLeast(cmp: Comparator, self: MinecraftVersion, o: Option<Operand>): (r: Except<bool>)
    ensures r.Throw? <==> o.None?
    ensures r.Ok? ==> (r.value <==> cmp(self.version, VersionOf(o.value)) >= 0)
  {
    match Compared(cmp, self, o)
    case Ok(c) => Ok(c >= 0)
    case Throw(e) => Throw(e)
  }

  /** `isOlderThan(version)`: strictly before. */
  function IsOlderThan(cmp: Comparator, self: MinecraftVersion, o: Option<Operand>): (r: Except<bool>)
    ensures r.Throw? <==> o.None?
    ensures r.Ok? ==> (r.value <==> cmp(self.version, VersionOf(o.value)) < 0)
  {
    match Compared(cmp, self, o)
    case Ok(c) => Ok(c < 0)
    case Throw(e) => Throw(e)
  }

  /** `isAtMost(version)`: before or equal. */
  function IsAtMost(cmp: Comparator, self: MinecraftVersion, o: Option<Operand>): (r: Except<bool>)
    ensures r.Throw? <==> o.None?
    ensures r.Ok? ==> (r.value <==> cmp(self.version, VersionOf(o.value)) <= 0)
  {
    match Compared(cmp, self, o)
    case Ok(c) => Ok(c <= 0)
    case Throw(e) => Throw(e)
  }

  /** `isAtLeast` is the negation of `isOlderThan`, on every argument. */
  lemma AtLeastIsNotOlder(cmp: Comparator, self: MinecraftVersion, o: Option<Operand>)
    ensures IsAtLeast(cmp, self, o).Throw? <==> IsOlderThan(cmp, self, o).Throw?
    ensures IsAtLeast(cmp, self, o).Ok? ==>
              IsAtLeast(cmp, self, o).value == !IsOlderThan(cmp, self, o).value
  {
  }

  /** `isAtMost` is the negation of `isNewerThan`, on every argument. */
  lemma AtMostIsNotNewer(cmp: Comparator, self: MinecraftVersion, o: Option<Operand>)
    ensures IsAtMost(cmp, self, o).Throw? <==> IsNewerThan(cmp, self, o).Throw?
    ensures IsAtMost(cmp, self, o).Ok? ==>
              IsAtMost(cmp, self, o).value == !IsNewerThan(cmp, self, o).value
  {
  }

  /**
   * The overloads taking another version agree with the `String` overloads
   * applied to that version's string, and `is(T)` is `compareTo(T) == 0`.
   */
  lemma VersionOverloadsAgree(cmp: Comparator, self: MinecraftVersion, v: MinecraftVersion)
    ensures Is(cmp, self, Some(Version(v))) == Is(cmp, self, Some(Text(v.version)))
    ensures Is(cmp, self, Some(Version(v))) == Ok(CompareTo(cmp, self, Some(v)).value == 0)
    ensures IsNewerThan(cmp, self, Some(Version(v))) == IsNewerThan(cmp, self, Some(Text(v.version)))
    ensures IsAtLeast(cmp, self, Some(Version(v))) == IsAtLeast(cmp, self, Some(Text(v.version)))
    ensures IsOlderThan(cmp, self, Some(Version(v))) == IsOlderThan(cmp, self, Some(Text(v.version)))
    ensures IsAtMost(cmp, self, Some(Version(v))) == IsAtMost(cmp, self, Some(Text(v.version)))
  {
  }

  // ---------------------------------------------------------------- ranges

  /**
   * `isInRange(startInclusive, start, endInclusive, end)`, both overloads:
   * a start of exactly "unknown" counts as below every version and an end
   * of exactly "unknown" as above every version.
   */
  function IsInRange(cmp: Comparator, self: MinecraftVersion,
                     startInclusive: bool, start: Option<Operand>,
                     endInclusive: bool, end: Option<Operand>): (r: Except<bool>)
    ensures r.Throw? <==> start.None? || end.None?
    ensures start.None? ==> r == Throw(NullPointer("start cannot be null"))
    ensures start.Some? && end.None? ==> r == Throw(NullPointer("end cannot be null"))
  {
    if start.None? then Throw(NullPointer("start cannot be null"))
    else if end.None? then Throw(NullPointer("end cannot be null"))
    else
      var s := VersionOf(start.value);
      var e := VersionOf(end.value);
      var compareStart := if s == UNKNOWN_STRING then 1 else cmp(self.version, s);
      var compareEnd := if e == UNKNOWN_STRING then -1 else cmp(self.version, e);
      Ok((if startInclusive then compareStart >= 0 else compareStart > 0)
         && (if endInclusive then compareEnd <= 0 else compareEnd < 0))
  }

  /** `isInRange(start, end)`, both overloads: the closed range. */
  function IsInRangeClosed(cmp: Comparator, self: MinecraftVersion,
                           start: Option<Operand>, end: Option<Operand>): (r: Except<bool>)
    ensures r.Throw? <==> start.None? || end.None?
  {
    if start.None? then Throw(NullPointer("start cannot be null"))
    else if end.None? then Throw(NullPointer("end cannot be null"))
    else
      var s := VersionOf(start.value);
      var e := VersionOf(end.value);
      var compareStart := if s == UNKNOWN_STRING then 1 else cmp(self.version, s);
      var compareEnd := if e == UNKNOWN_STRING then -1 else cmp(self.version, e);
      Ok(compareStart >= 0 && compareEnd <= 0)
  }

  /** One end of a version interval. */
  datatype Bound = Unbounded | Closed(at: string) | Open(at: string)

  /** The bound a range end names: "unknown" is no bound at all. */
  function BoundOf(inclusive: bool, s: string): Bound
  {
    if s == UNKNOWN_STRING then Unbounded
    else if inclusive then Closed(s) else Open(s)
  }

  /** `v` is at or above the lower bound `b`. */
  predicate AboveLower(cmp: Comparator, v: string, b: Bound)
  {
    match b
    case Unbounded => true
    case Closed(s) => cmp(v, s) >= 0
    case Open(s) => cmp(v, s) > 0
  }

  /** `v` is at or below the upper bound `b`. */
  predicate BelowUpper(cmp: Comparator, v: string, b: Bound)
  {
    match b
    case Unbounded => true
    case Closed(s) => cmp(v, s) <= 0
    case Open(s) => cmp(v, s) < 0
  }

  /** The interval between two bounds. */
  predicate InInterval(cmp: Comparator, v: string, lower: Bound, upper: Bound)
  {
    AboveLower(cmp, v, lower) && BelowUpper(cmp, v, upper)
  }

  /**
   * `isInRange` is membership of the interval its arguments describe, with
   * "unknown" (and only that exact string) leaving a side unbounded.
   */
  lemma InRangeIsInterval(cmp: Comparator, self: MinecraftVersion,
                          startInclusive: bool, start: Operand,
                          endInclusive: bool, end: Operand)
    ensures IsInRange(cmp, self, startInclusive, Some(start), endInclusive, Some(end))
            == Ok(InInterval(cmp, self.version, BoundOf(startInclusive, VersionOf(start)),
                             BoundOf(endInclusive, VersionOf(end))))
  {
  }

  /** With both ends "unknown" every version is in range, whatever the flags. */
  lemma UnknownEndsAdmitAll(cmp: Comparator, self: MinecraftVersion,
                            startInclusive: bool, endInclusive: bool)
    ensures IsInRange(cmp, self, startInclusive, Some(Version(UNKNOWN)),
                      endInclusive, Some(Text(UNKNOWN_STRING))) == Ok(true)
  {
  }

  /** The two-argument `isInRange` is the four-argument one with both ends inclusive. */
  lemma ClosedRangeIsInclusive(cmp: Comparator, self: MinecraftVersion,
                               start: Option<Operand>, end: Option<Operand>)
    ensures IsInRangeClosed(cmp, self, start, end) == IsInRange(cmp, self, true, start, true, end)
  {
  }

  // ---------------------------------------------------------------- construction

  /** `MinecraftVersions.of`: Beta 1.7.3 strings map to the shared constant. */
  function Of(version: string): (r: MinecraftVersion)
    ensures Contains(version, BETA_1_7_3_MARKER) ==> r == B1_7_3
    ensures !Contains(version, BETA_1_7_3_MARKER) ==> r.version == version
  {
    if Contains(version, BETA_1_7_3_MARKER) then B1_7_3 else MinecraftVersion(version)
  }

  /** The marker is found anywhere in the string, whatever surrounds it. */
  lemma BetaMarkerAnywhere(before: string, after: string)
    ensures Of(before + BETA_1_7_3_MARKER + after) == B1_7_3
  {
    var s := before + BETA_1_7_3_MARKER + after;
    assert s[|before|..|before| + |BETA_1_7_3_MARKER|] == BETA_1_7_3_MARKER;
    assert OccursAt(s, BETA_1_7_3_MARKER, |before|);
  }

  /** `MinecraftVersionImpl.toString`: the version string. */
  function ToString(self: MinecraftVersion): (r: string)
    ensures r == self.version
    ensures Of(r) == self || Contains(r, BETA_1_7_3_MARKER)
  {
    self.version
  }

  /** Printing a version made by `of` gives back its string, unless it was Beta 1.7.3. */
  lemma ToStringOfRoundTrip(version: string)
    ensures !Contains(version, BETA_1_7_3_MARKER) ==> ToString(Of(version)) == version
  {
  }

  /** The object `equals` is given, as far as `MinecraftVersionImpl.equals` looks at it. */
  datatype Other = Null | Itself | VersionImpl(impl: MinecraftVersion) | OtherClass

  /** `MinecraftVersionImpl.equals`: same reference, or a version comparing equal. */
  function Equals(cmp: Comparator, self: MinecraftVersion, o: Other): (r: bool)
    ensures o.Null? || o.OtherClass? ==> !r
    ensures o.VersionImpl? ==> (r <==> Is(cmp, self, Some(Version(o.impl))) == Ok(true))
  {
    match o
    case Itself => true
    case Null => false
    case OtherClass => false
    case VersionImpl(v) => cmp(self.version, v.version) == 0
  }

  /** `equals` is reflexive through the reference check, whatever `cmp` says. */
  lemma EqualsReflexive(cmp: Comparator, self: MinecraftVersion)
    ensures Equals(cmp, self, Itself)
  {
  }

  // ---------------------------------------------------------------- parseRange

  /** `VersionUtil.Range`: the flags and the optional ends of a parsed range. */
  datatype Range = Range(startInclusive: bool, start: Option<string>,
                         endInclusive: bool, end: Option<string>)

  /** `VersionUtil.Range.parse`, not part of this model: `None` when not a range. */
  type RangeParser = string -> Option<Range>

  /** The version a range end stands for: a missing end is UNKNOWN. */
  function EndVersion(s: Option<string>): MinecraftVersion
  {
    if s.None? then UNKNOWN else Of(s.value)
  }

  /**
   * `MinecraftVersion.parseRange`: a string that parses as a range is tested
   * with `isInRange`, anything else with `is`.
   */
  function ParseRange(cmp: Comparator, parse: RangeParser, self: MinecraftVersion,
                      rangeString: Option<string>): (r: Except<bool>)
    ensures r.Throw? <==> rangeString.None?
    ensures rangeString.Some? && parse(rangeString.value).None? ==>
              r == Is(cmp, self, Some(Text(rangeString.value)))
  {
    if rangeString.None? then Throw(NullPointer("Range string cannot be null"))
    else
      match parse(rangeString.value)
      case None => Is(cmp, self, Some(Text(rangeString.value)))
      case Some(range) =>
        IsInRange(cmp, self, range.startInclusive, Some(Version(EndVersion(range.start))),
                  range.endInclusive, Some(Version(EndVersion(range.end))))
  }

  /**
   * A parsed range is the interval its ends describe; a missing end leaves
   * that side unbounded, and the inclusivity flags are kept.
   */
  lemma ParseRangeIsInterval(cmp: Comparator, parse: RangeParser, self: MinecraftVersion,
                             rangeString: string)
    requires parse(rangeString).Some?
    ensures var range := parse(rangeString).value;
            ParseRange(cmp, parse, self, Some(rangeString))
            == Ok(InInterval(cmp, self.version,
                             BoundOf(range.startInclusive, EndVersion(range.start).version),
                             BoundOf(range.endInclusive, EndVersion(range.end).version)))
    ensures parse(rangeString).value.start.None? ==>
              BoundOf(parse(rangeString).value.startInclusive,
                      EndVersion(parse(rangeString).value.start).version) == Unbounded
    ensures parse(rangeString).value.end.None? ==>
              BoundOf(parse(rangeString).value.endInclusive,
                      EndVersion(parse(rangeString).value.end).version) == Unbounded
  {
    var range := parse(rangeString).value;
    InRangeIsInterval(cmp, self, range.startInclusive, Version(EndVersion(range.start)),
                      range.endInclusive, Version(EndVersion(range.end)));
  }

  // ---------------------------------------------------------------- release type

  /** `MinecraftVersion.Type`, in declaration order. */
  datatype ReleaseType = Unknown | Snapshot | ExpSnapshot | PreRelease | ReleaseCandidate | Release

  /** The enum's `ordinal()`. */
  function Ordinal(t: ReleaseType): (n: nat)
    ensures n <= 5
  {
    match t
    case Unknown => 0
    case Snapshot => 1
    case ExpSnapshot => 2
    case PreRelease => 3
    case ReleaseCandidate => 4
    case Release => 5
  }

  /** `Type.fromInt`: 1 to 5 name the known types, anything else is UNKNOWN. */
  function FromInt(i: int): (t: ReleaseType)
    ensures t != Unknown <==> 1 <= i <= 5
  {
    match i
    case 1 => Snapshot
    case 2 => ExpSnapshot
    case 3 => PreRelease
    case 4 => ReleaseCandidate
    case 5 => Release
    case _ => Unknown
  }

  /** `fromInt` inverts `ordinal()` on every known type, and vice versa on 1 to 5. */
  lemma FromIntInvertsOrdinal(t: ReleaseType, i: int)
    ensures t != Unknown ==> FromInt(Ordinal(t)) == t
    ensures 1 <= i <= 5 ==> Ordinal(FromInt(i)) == i
  {
  }
}
