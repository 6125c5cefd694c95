/**
 * The constraint system of the metadata layer: the `Constraint` record and
 * its `Builder`, the `Evaluator` with its result cache, and the memoising
 * `Constraints` collection.
 *
 * The running game is an `Environment`: which mods are loaded, which
 * platforms are present, the mappings, the side and the Minecraft version,
 * together with the version ordering. A constraint is checked against it.
 */
module Constraints {
  import opened Java
  import opened Versions
  import Platforms

  type Platform = Platforms.Platform

  /** A `Mappings` enum constant, by name. */
  datatype Mappings = Mappings(name: string)

  /** `Mappings.NONE`: no mappings requirement. */
  const NONE: Mappings := Mappings("NONE")

  /** A `Side` enum constant, by name. */
  datatype Side = Side(name: string)

  /**
   * What `MetaAPI` reports about the running game. `modLoaded` answers for
   * one id (the metadata classes also try its lowercase form);
   * `platformPresent` is `isPlatformPresent` over the platforms it is given;
   * `mappingsIs` is the current mappings' `is`.
   */
  datatype Environment = Environment(
    modLoaded: string -> bool,
    platformPresent: set<Platform> -> bool,
    mappings: Mappings,
    mappingsIs: Mappings -> bool,
    side: Side,
    version: MinecraftVersion,
    cmp: Comparator)

  /** `isModLoaded(ids...)`: some id of the group is loaded. */
  predicate IsModLoaded(env: Environment, ids: set<string>)
  {
    exists id :: id in ids && env.modLoaded(id)
  }

  /** The elements of a list, as the `HashSet` that `addAll` fills. */
  function Elements<T(!new)>(s: seq<T>): (r: set<T>)
    ensures forall x :: x in r <==> x in s
  {
    set x | x in s
  }

  /** The record `Constraint`; its collections are the builder's sets. */
  datatype Constraint = Constraint(
    deps: set<string>,
    notDeps: set<string>,
    mappings: Mappings,
    platform: set<Platform>,
    notPlatform: set<Platform>,
    side: set<Side>,
    version: set<MinecraftVersion>,
    min: MinecraftVersion,
    max: MinecraftVersion,
    notVersion: set<MinecraftVersion>,
    notMin: MinecraftVersion,
    notMax: MinecraftVersion)

  /** What a fresh builder builds: no requirement at all. */
  const UNCONSTRAINED: Constraint :=
    Constraint({}, {}, NONE, {}, {}, {}, {}, UNKNOWN, UNKNOWN, {}, UNKNOWN, UNKNOWN)

  // ---------------------------------------------------------------- evaluation

  /** `evalDeps`: a required group must be loaded, a forbidden group must not. */
  predicate EvalDeps(env: Environment, c: Constraint)
  {
    if c.deps != {} && !IsModLoaded(env, c.deps) then false
    else if c.notDeps != {} && IsModLoaded(env, c.notDeps) then false
    else true
  }

  /** `evalMappings`: NONE passes, anything else must be the current mappings. */
  predicate EvalMappings(env: Environment, c: Constraint)
  {
    if c.mappings == NONE then true
    else env.mappings == c.mappings
  }

  /**
   * `evalPlatform` as it is meant: the required platforms must be present
   * and the forbidden ones absent. The test the source runs is
   * `EvalPlatformAsWritten`, which `Holds` uses.
   */
  predicate EvalPlatform(env: Environment, c: Constraint)
  {
    if c.platform != {} && !env.platformPresent(c.platform) then false
    else if c.notPlatform != {} && env.platformPresent(c.notPlatform) then false
    else true
  }

  /**
   * `evalPlatform` as written: the forbidden-platform test runs when
   * `notPlatform` is non-empty but asks about the required `platform` list.
   */
  predicate EvalPlatformAsWritten(env: Environment, c: Constraint)
  {
    if c.platform != {} && !env.platformPresent(c.platform) then false
    else if c.notPlatform != {} && env.platformPresent(c.platform) then false
    else true
  }

  /** `evalSide`: an empty set passes, otherwise the current side must be listed. */
  predicate EvalSide(env: Environment, c: Constraint)
  {
    if c.side == {} then true
    else env.side in c.side
  }

  /** `version.isInRange(lo, hi)`: the closed range; its arguments are never null here. */
  predicate InRange(env: Environment, lo: MinecraftVersion, hi: MinecraftVersion)
  {
    IsInRangeClosed(env.cmp, env.version, Some(Version(lo)), Some(Version(hi))).value
  }

  /**
   * `evalVersion`: the listed versions, the min-max range, the forbidden
   * versions and the forbidden range; a range is enforced only when both of
   * its bounds differ from UNKNOWN.
   */
  predicate EvalVersion(env: Environment, c: Constraint)
  {
    if c.version != {} && env.version !in c.version then false
    else if c.min != UNKNOWN && c.max != UNKNOWN && !InRange(env, c.min, c.max) then false
    else if c.notVersion != {} && env.version in c.notVersion then false
    else if c.notMin != UNKNOWN && c.notMax != UNKNOWN && InRange(env, c.notMin, c.notMax) then false
    else true
  }

  /** The conjunction `evaluate` computes, in its short-circuit order, with the platform test as written. */
  predicate Holds(env: Environment, c: Constraint)
  {
    EvalDeps(env, c) && EvalMappings(env, c) && EvalPlatformAsWritten(env, c)
    && EvalSide(env, c) && EvalVersion(env, c)
  }

  /** The same conjunction with the platform test as it is meant. */
  predicate HoldsIntended(env: Environment, c: Constraint)
  {
    EvalDeps(env, c) && EvalMappings(env, c) && EvalPlatform(env, c)
    && EvalSide(env, c) && EvalVersion(env, c)
  }

  /** `evalDeps` in words: some required id is loaded and no forbidden id is. */
  lemma EvalDepsMeaning(env: Environment, c: Constraint)
    ensures EvalDeps(env, c) <==>
              (c.deps == {} || exists id :: id in c.deps && env.modLoaded(id))
              && (forall id :: id in c.notDeps ==> !env.modLoaded(id))
  {
  }

  /** `evalSide` in words: no side listed, or the current one among them. */
  lemma EvalSideMeaning(env: Environment, c: Constraint)
    ensures EvalSide(env, c) <==> c.side == {} || env.side in c.side
  {
  }

  /**
   * A range with both bounds known is the closed interval of the version
   * ordering; the forbidden range excludes exactly that interval.
   */
  lemma VersionRangeEnforced(env: Environment, c: Constraint)
    requires c.min != UNKNOWN && c.max != UNKNOWN
    ensures EvalVersion(env, c) ==>
              env.cmp(env.version.version, c.min.version) >= 0
              && env.cmp(env.version.version, c.max.version) <= 0
  {
    assert c.min.version != UNKNOWN_STRING && c.max.version != UNKNOWN_STRING;
  }

  /** Likewise, a forbidden range with both bounds known rejects its closed interval. */
  lemma ForbiddenRangeEnforced(env: Environment, c: Constraint)
    requires c.notMin != UNKNOWN && c.notMax != UNKNOWN
    requires env.cmp(env.version.version, c.notMin.version) >= 0
    requires env.cmp(env.version.version, c.notMax.version) <= 0
    ensures !EvalVersion(env, c)
  {
    assert c.notMin.version != UNKNOWN_STRING && c.notMax.version != UNKNOWN_STRING;
  }

  /** A range with one UNKNOWN bound is not enforced: its other bound changes nothing. */
  lemma HalfRangeIgnored(env: Environment, c: Constraint)
    requires c.max == UNKNOWN || c.min == UNKNOWN
    ensures EvalVersion(env, c) == EvalVersion(env, c.(min := UNKNOWN, max := UNKNOWN))
  {
  }

  /** A constraint straight from a fresh builder holds everywhere. */
  lemma UnconstrainedHolds(env: Environment)
    ensures Holds(env, UNCONSTRAINED)
  {
  }

  /**
   * As written, a constraint that only forbids platforms never fails the
   * platform check when no required platform is named and the empty
   * platform query is negative, even when the forbidden platform is present.
   */
  lemma PlatformExclusionAsWrittenMisses()
    ensures var env := Environment(_ => false, ps => Platforms.FORGE in ps, NONE, _ => false,
                                   Side("SERVER"), UNKNOWN, (a, b) => 0);
            var c := UNCONSTRAINED.(notPlatform := {Platforms.FORGE});
            EvalPlatformAsWritten(env, c) && !EvalPlatform(env, c)
            && Holds(env, c) && !HoldsIntended(env, c)
  {
    var env := Environment(_ => false, ps => Platforms.FORGE in ps, NONE, _ => false,
                           Side("SERVER"), UNKNOWN, (a, b) => 0);
    var c := UNCONSTRAINED.(notPlatform := {Platforms.FORGE});
    assert !env.platformPresent(c.platform);
    assert env.platformPresent(c.notPlatform);
  }

  /**
   * Conversely, as written, a constraint that requires a present platform
   * and forbids an absent one fails: the forbidden-platform test finds the
   * required platform.
   */
  lemma PlatformRequirementAsWrittenRejects()
    ensures var env := Environment(_ => false, ps => Platforms.FORGE in ps, NONE, _ => false,
                                   Side("SERVER"), UNKNOWN, (a, b) => 0);
            var c := UNCONSTRAINED.(platform := {Platforms.FORGE}, notPlatform := {Platforms.FABRIC});
            !Holds(env, c) && HoldsIntended(env, c)
  {
    var env := Environment(_ => false, ps => Platforms.FORGE in ps, NONE, _ => false,
                           Side("SERVER"), UNKNOWN, (a, b) => 0);
    var c := UNCONSTRAINED.(platform := {Platforms.FORGE}, notPlatform := {Platforms.FABRIC});
    assert env.platformPresent(c.platform);
    assert !env.platformPresent(c.notPlatform);
  }

  /** The corrected check fails whenever the forbidden platforms are reported present. */
  lemma ForbiddenPlatformRejects(env: Environment, c: Constraint)
    requires c.notPlatform != {} && env.platformPresent(c.notPlatform)
    ensures !EvalPlatform(env, c) && !HoldsIntended(env, c)
  {
  }

  /** The two versions agree whenever nothing is forbidden, or the lists coincide. */
  lemma PlatformAsWrittenAgrees(env: Environment, c: Constraint)
    requires c.notPlatform == {} || c.notPlatform == c.platform
    ensures EvalPlatformAsWritten(env, c) == EvalPlatform(env, c)
    ensures Holds(env, c) == HoldsIntended(env, c)
  {
  }

  // ---------------------------------------------------------------- builder

  /** `Constraint.Builder`: sets that accumulate, scalars that are overwritten. */
  class Builder {
    var deps: set<string>
    var notDeps: set<string>
    var mappings: Mappings
    var platform: set<Platform>
    var notPlatform: set<Platform>
    var side: set<Side>
    var version: set<MinecraftVersion>
    var min: MinecraftVersion
    var max: MinecraftVersion
    var notVersion: set<MinecraftVersion>
    var notMin: MinecraftVersion
    var notMax: MinecraftVersion

    /** The constraint `build()` would return now. */
    function Snapshot(): Constraint
      reads this
    {
      Constraint(deps, notDeps, mappings, platform, notPlatform, side, version,
                 min, max, notVersion, notMin, notMax)
    }

    /** `Constraint.builder()`: empty sets, NONE mappings, UNKNOWN bounds. */
    constructor ()
      ensures Snapshot() == UNCONSTRAINED
    {
      deps, notDeps, mappings := {}, {}, NONE;
      platform, notPlatform, side := {}, {}, {};
      version, min, max := {}, UNKNOWN, UNKNOWN;
      notVersion, notMin, notMax := {}, UNKNOWN, UNKNOWN;
    }

    /** `deps(...)`, both overloads: adds to the required ids. */
    method AddDeps(ids: seq<string>)
      modifies this
      ensures Snapshot() == old(Snapshot()).(deps := old(deps) + Elements(ids))
    {
      deps := deps + Elements(ids);
    }

    /** `notDeps(...)`: adds to the forbidden ids. */
    method AddNotDeps(ids: seq<string>)
      modifies this
      ensures Snapshot() == old(Snapshot()).(notDeps := old(notDeps) + Elements(ids))
    {
      notDeps := notDeps + Elements(ids);
    }

    /** `mappings(m)`: the last value wins. */
    method SetMappings(m: Mappings)
      modifies this
      ensures Snapshot() == old(Snapshot()).(mappings := m)
    {
      mappings := m;
    }

    /** `platform(...)`: adds to the required platforms. */
    method AddPlatform(ps: seq<Platform>)
      modifies this
      ensures Snapshot() == old(Snapshot()).(platform := old(platform) + Elements(ps))
    {
      platform := platform + Elements(ps);
    }

    /** `notPlatform(...)`: adds to the forbidden platforms. */
    method AddNotPlatform(ps: seq<Platform>)
      modifies this
      ensures Snapshot() == old(Snapshot()).(notPlatform := old(notPlatform) + Elements(ps))
    {
      notPlatform := notPlatform + Elements(ps);
    }

    /** `side(...)`: adds to the sides. */
    method AddSide(ss: seq<Side>)
      modifies this
      ensures Snapshot() == old(Snapshot()).(side := old(side) + Elements(ss))
    {
      side := side + Elements(ss);
    }

    /** `version(...)`: adds to the accepted versions. */
    method AddVersion(vs: seq<MinecraftVersion>)
      modifies this
      ensures Snapshot() == old(Snapshot()).(version := old(version) + Elements(vs))
    {
      version := version + Elements(vs);
    }

    /** `min(v)`: the last value wins. */
    method SetMin(v: MinecraftVersion)
      modifies this
      ensures Snapshot() == old(Snapshot()).(min := v)
    {
      min := v;
    }

    /** `max(v)`: the last value wins. */
    method SetMax(v: MinecraftVersion)
      modifies this
      ensures Snapshot() == old(Snapshot()).(max := v)
    {
      max := v;
    }

    /** `notVersion(...)`: adds to the forbidden versions. */
    method AddNotVersion(vs: seq<MinecraftVersion>)
      modifies this
      ensures Snapshot() == old(Snapshot()).(notVersion := old(notVersion) + Elements(vs))
    {
      notVersion := notVersion + Elements(vs);
    }

    /** `notMin(v)`: the last value wins. */
    method SetNotMin(v: MinecraftVersion)
      modifies this
      ensures Snapshot() == old(Snapshot()).(notMin := v)
    {
      notMin := v;
    }

    /** `notMax(v)`: the last value wins. */
    method SetNotMax(v: MinecraftVersion)
      modifies this
      ensures Snapshot() == old(Snapshot()).(notMax := v)
    {
      notMax := v;
    }

    /** `build()`: a constraint holding the builder's current contents. */
    method Build() returns (c: Constraint)
      ensures c == Snapshot()
    {
      c := Constraint(deps, notDeps, mappings, platform, notPlatform, side, version,
                      min, max, notVersion, notMin, notMax);
    }
  }

  // ---------------------------------------------------------------- from(AConstraint)

  /** `@Dependency`: an id and the aliases that count as the same dependency. */
  datatype Dependency = Dependency(value: string, aliases: seq<string>)

  /** `@Versions`: accepted versions and a min-max range, UNKNOWN by default. */
  datatype VersionsAnnotation = VersionsAnnotation(value: seq<MinecraftVersion>, min: MinecraftVersion, max: MinecraftVersion)

  /** The `@AConstraint` members `Constraint.from` reads. */
  datatype AConstraint = AConstraint(
    deps: seq<Dependency>,
    notDeps: seq<Dependency>,
    mappings: Mappings,
    platform: seq<Platform>,
    notPlatform: seq<Platform>,
    side: seq<Side>,
    version: VersionsAnnotation,
    notVersion: VersionsAnnotation)

  /** The dependency ids, in order. */
  function Values(ds: seq<Dependency>): (r: seq<string>)
    ensures |r| == |ds| && forall i :: 0 <= i < |ds| ==> r[i] == ds[i].value
  {
    seq(|ds|, i requires 0 <= i < |ds| => ds[i].value)
  }

  /** All aliases of all dependencies, flattened in order. */
  function Aliases(ds: seq<Dependency>): seq<string>
  {
    if ds == [] then [] else ds[0].aliases + Aliases(ds[1..])
  }

  /** An id is among the flattened aliases exactly when some dependency lists it. */
  lemma {:induction false} AliasesContain(ds: seq<Dependency>, id: string)
    ensures id in Aliases(ds) <==> exists i :: 0 <= i < |ds| && id in ds[i].aliases
  {
    if ds != [] {
      AliasesContain(ds[1..], id);
      if id in Aliases(ds[1..]) {
        var i :| 0 <= i < |ds[1..]| && id in ds[1..][i].aliases;
        assert id in ds[i + 1].aliases;
      }
      if exists i :: 0 <= i < |ds| && id in ds[i].aliases {
        var i :| 0 <= i < |ds| && id in ds[i].aliases;
        if i > 0 {
          assert id in ds[1..][i - 1].aliases;
        }
      }
    }
  }

  /** The ids a list of dependencies contributes: every value and every alias. */
  function DependencyIds(ds: seq<Dependency>): set<string>
  {
    Elements(Values(ds)) + Elements(Aliases(ds))
  }

  /** An id is contributed exactly when it is some dependency's value or one of its aliases. */
  lemma DependencyIdsMeaning(ds: seq<Dependency>, id: string)
    ensures id in DependencyIds(ds) <==>
              exists i :: 0 <= i < |ds| && (id == ds[i].value || id in ds[i].aliases)
  {
    AliasesContain(ds, id);
  }

  /** The constraint `Constraint.from` builds from an annotation. */
  function Translate(a: AConstraint): Constraint
  {
    Constraint(DependencyIds(a.deps), DependencyIds(a.notDeps), a.mappings,
               Elements(a.platform), Elements(a.notPlatform), Elements(a.side),
               Elements(a.version.value), a.version.min, a.version.max,
               Elements(a.notVersion.value), a.notVersion.min, a.notVersion.max)
  }

  /**
   * `Constraint.from`: feeds every member of the annotation to a fresh
   * builder, values and aliases of the dependencies alike.
   */
  method From(a: AConstraint) returns (c: Constraint)
    ensures c == Translate(a)
  {
    var b := new Builder();
    b.AddDeps(Values(a.deps));
    b.AddDeps(Aliases(a.deps));
    b.AddNotDeps(Values(a.notDeps));
    b.AddNotDeps(Aliases(a.notDeps));
    b.SetMappings(a.mappings);
    b.AddPlatform(a.platform);
    b.AddNotPlatform(a.notPlatform);
    b.AddSide(a.side);
    b.AddVersion(a.version.value);
    b.SetMin(a.version.min);
    b.SetMax(a.version.max);
    b.AddNotVersion(a.notVersion.value);
    b.SetNotMin(a.notVersion.min);
    b.SetNotMax(a.notVersion.max);
    c := b.Build();
  }

  /** An annotation with no members translates to the unconstrained constraint. */
  lemma EmptyAnnotationTranslates()
    ensures Translate(AConstraint([], [], NONE, [], [], [], VersionsAnnotation([], UNKNOWN, UNKNOWN),
                                  VersionsAnnotation([], UNKNOWN, UNKNOWN))) == UNCONSTRAINED
  {
    assert Elements<string>([]) == {};
    assert Aliases([]) == [];
  }

  // ---------------------------------------------------------------- evaluator

  /** `Constraint.Evaluator`: the result cache and the `DEBUG` switch. */
  class Evaluator {
    var cache: map<Constraint, bool>
    var debug: bool
    const env: Environment

    /** Every cached answer is the constraint's value in the environment. */
    ghost predicate Valid()
      reads this
    {
      forall c :: c in cache ==> cache[c] == Holds(env, c)
    }

    constructor (env: Environment)
      ensures Valid() && cache == map[] && !debug && this.env == env
    {
      this.env := env;
      cache := map[];
      debug := false;
    }

    /**
     * `evaluate`: a cached constraint answers from the cache; any other is
     * evaluated and its answer stored.
     */
    method Evaluate(c: Constraint) returns (r: bool)
      requires Valid()
      modifies this`cache
      ensures Valid()
      ensures r == Holds(env, c)
      ensures c in old(cache) ==> cache == old(cache)
      ensures c !in old(cache) ==> cache == old(cache)[c := r]
    {
      if c in cache {
        return cache[c];
      }
      r := EvalDeps(env, c) && EvalMappings(env, c) && EvalPlatformAsWritten(env, c)
           && EvalSide(env, c) && EvalVersion(env, c);
      cache := cache[c := r];
    }
  }

  // ---------------------------------------------------------------- Constraints

  /** Every constraint of the collection holds. */
  predicate AllHold(env: Environment, cs: seq<Constraint>)
  {
    forall i :: 0 <= i < |cs| ==> Holds(env, cs[i])
  }

  /** No constraint occurs twice. */
  predicate Distinct(cs: seq<Constraint>)
  {
    forall i, j :: 0 <= i < j < |cs| ==> cs[i] != cs[j]
  }

  /** The class `Constraints`: a collection whose all-match result is computed once. */
  class ConstraintSet {
    const constraints: seq<Constraint>
    const evaluator: Evaluator
    var evaluated: bool
    var result: bool

    ghost predicate Valid()
      reads this, evaluator
    {
      evaluator.Valid() && (evaluated ==> result == AllHold(evaluator.env, constraints))
    }

    /** `new Constraints(collection)`. */
    constructor (constraints: seq<Constraint>, evaluator: Evaluator)
      requires evaluator.Valid()
      ensures Valid() && !evaluated
      ensures this.constraints == constraints && this.evaluator == evaluator
    {
      this.constraints := constraints;
      this.evaluator := evaluator;
      evaluated := false;
    }

    /**
     * `new Constraints(constraint...)`: `Set.of` refuses a repeated element.
     * Repetition is value equality here; see README for how Java's differs.
     */
    static method OfDistinct(cs: seq<Constraint>, evaluator: Evaluator) returns (r: Except<ConstraintSet>)
      requires evaluator.Valid()
      ensures r.Throw? <==> !Distinct(cs)
      ensures r.Throw? ==> r.error.IllegalArgument?
      ensures r.Ok? ==> fresh(r.value) && r.value.Valid() && !r.value.evaluated
                        && r.value.constraints == cs && r.value.evaluator == evaluator
    {
      if !Distinct(cs) {
        return Throw(IllegalArgument("duplicate element"));
      }
      var s := new ConstraintSet(cs, evaluator);
      r := Ok(s);
    }

    /** `Constraints.from(AConstraint...)`: each annotation through `Constraint.from`. */
    static method FromAll(annotations: seq<AConstraint>, evaluator: Evaluator) returns (s: ConstraintSet)
      requires evaluator.Valid()
      ensures fresh(s) && s.Valid() && !s.evaluated && s.evaluator == evaluator
      ensures |s.constraints| == |annotations|
      ensures forall i :: 0 <= i < |annotations| ==> s.constraints[i] == Translate(annotations[i])
    {
      var cs: seq<Constraint> := [];
      var i := 0;
      while i < |annotations|
        invariant 0 <= i <= |annotations| && |cs| == i
        invariant forall j :: 0 <= j < i ==> cs[j] == Translate(annotations[j])
      {
        var c := From(annotations[i]);
        cs := cs + [c];
        i := i + 1;
      }
      s := new ConstraintSet(cs, evaluator);
    }

    /**
     * `result()`: on the first call, evaluates the constraints in order up
     * to the first that fails, and stores the answer; later calls return it.
     */
    method Result() returns (r: bool)
      requires Valid()
      modifies this, evaluator`cache
      ensures Valid() && evaluated
      ensures r == AllHold(evaluator.env, constraints)
      ensures old(evaluated) ==> r == old(result) && evaluator.cache == old(evaluator.cache)
    {
      if !evaluated {
        var all := true;
        var i := 0;
        while i < |constraints|
          invariant 0 <= i <= |constraints|
          invariant evaluator.Valid()
          invariant all <==> forall j :: 0 <= j < i ==> Holds(evaluator.env, constraints[j])
          invariant !all ==> i == |constraints|
          decreases |constraints| - i
        {
          var ok := evaluator.Evaluate(constraints[i]);
          if !ok {
            all := false;
            i := |constraints|;
          } else {
            i := i + 1;
          }
        }
        result := all;
        evaluated := true;
      }
      r := result;
    }
  }

  /** `Constraints.from(AConstraints)`: the annotation's value array. */
  datatype AConstraints = AConstraints(value: seq<AConstraint>)

  /** `Constraints.from(AConstraints)` delegates to the array overload. */
  method FromAnnotations(a: AConstraints, evaluator: Evaluator) returns (s: ConstraintSet)
    requires evaluator.Valid()
    ensures fresh(s) && s.Valid() && !s.evaluated && s.evaluator == evaluator
    ensures |s.constraints| == |a.value|
    ensures forall i :: 0 <= i < |a.value| ==> s.constraints[i] == Translate(a.value[i])
  {
    s := ConstraintSet.FromAll(a.value, evaluator);
  }

  /** An empty collection holds; one failing member makes the whole fail. */
  lemma AllHoldCases(env: Environment, cs: seq<Constraint>, k: nat)
    ensures AllHold(env, [])
    ensures k < |cs| && !Holds(env, cs[k]) ==> !AllHold(env, cs)
  {
  }
}
