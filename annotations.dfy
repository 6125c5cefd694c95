/**
 * `AnnotationChecker`: decides from a mixin's annotations whether it should
 * be applied. The bytecode annotation nodes are modelled as a datatype with
 * one variant per recognised descriptor; member values the annotation does
 * not set read as their declared defaults.
 */
module Annotations {
  import opened Java
  import opened Strings
  import opened Versions
  import opened Constraints

  /** A `@Dependency` node: its id and its aliases, which may be absent. */
  datatype DependencyNode = DependencyNode(value: string, aliases: Option<seq<string>>)

  /** A `@Versions` node. */
  datatype VersionsNode = VersionsNode(value: seq<MinecraftVersion>, min: MinecraftVersion, max: MinecraftVersion)

  /** An `@AConstraint` node; `version` and `notVersion` are absent when not written. */
  datatype ConstraintNode = ConstraintNode(
    deps: seq<DependencyNode>,
    notDeps: seq<DependencyNode>,
    mappings: Mappings,
    platform: seq<Platform>,
    notPlatform: seq<Platform>,
    side: seq<Side>,
    version: Option<VersionsNode>,
    notVersion: Option<VersionsNode>)

  /** A class-level annotation node, classified by its descriptor. */
  datatype AnnotationNode =
    | ConstraintAnnotation(constraint: ConstraintNode)
    | ConstraintsAnnotation(constraints: seq<ConstraintNode>)
    | ReqDependency(dependencies: seq<string>)
    | ReqMappings(required: Mappings)
    | ReqPlatform(platforms: seq<Platform>, notPlatforms: seq<Platform>)
    | ReqMCVersion(min: MinecraftVersion, max: MinecraftVersion, versions: seq<MinecraftVersion>)
    | Unrecognised(desc: string)

  // ---------------------------------------------------------------- toConstraint

  /** A dependency node as a `@Dependency`: a missing alias list contributes nothing. */
  function AsDependency(d: DependencyNode): Dependency
  {
    Dependency(d.value, if d.aliases.Some? then d.aliases.value else [])
  }

  function AsDependencies(ds: seq<DependencyNode>): (r: seq<Dependency>)
    ensures |r| == |ds| && forall i :: 0 <= i < |ds| ==> r[i] == AsDependency(ds[i])
  {
    seq(|ds|, i requires 0 <= i < |ds| => AsDependency(ds[i]))
  }

  /** A versions node as a `@Versions`: an absent node has no values and UNKNOWN bounds. */
  function AsVersions(v: Option<VersionsNode>): VersionsAnnotation
  {
    match v
    case None => VersionsAnnotation([], UNKNOWN, UNKNOWN)
    case Some(n) => VersionsAnnotation(n.value, n.min, n.max)
  }

  /** The annotation a constraint node stands for. */
  function AsAnnotation(n: ConstraintNode): AConstraint
  {
    AConstraint(AsDependencies(n.deps), AsDependencies(n.notDeps), n.mappings,
                n.platform, n.notPlatform, n.side, AsVersions(n.version), AsVersions(n.notVersion))
  }

  /** `toConstraint`: the constraint a node describes, built as `Constraint.from` builds it. */
  function ToConstraint(n: ConstraintNode): Constraint
  {
    Translate(AsAnnotation(n))
  }

  /** An id is among the aliases of a dependency node. */
  predicate AliasOf(d: DependencyNode, id: string)
  {
    d.aliases.Some? && id in d.aliases.value
  }

  /**
   * The required ids of a node are its dependencies' values and aliases, a
   * missing alias list contributing none; likewise for the forbidden ids.
   */
  lemma ToConstraintDeps(n: ConstraintNode, id: string)
    ensures id in ToConstraint(n).deps <==>
              exists i :: 0 <= i < |n.deps| && (id == n.deps[i].value || AliasOf(n.deps[i], id))
    ensures id in ToConstraint(n).notDeps <==>
              exists i :: 0 <= i < |n.notDeps| && (id == n.notDeps[i].value || AliasOf(n.notDeps[i], id))
  {
    DependencyIdsMeaning(AsDependencies(n.deps), id);
    DependencyIdsMeaning(AsDependencies(n.notDeps), id);
  }

  /** The remaining members are copied, and an absent versions node constrains nothing. */
  lemma ToConstraintMembers(n: ConstraintNode)
    ensures ToConstraint(n).mappings == n.mappings
    ensures forall p :: p in ToConstraint(n).platform <==> p in n.platform
    ensures forall p :: p in ToConstraint(n).notPlatform <==> p in n.notPlatform
    ensures forall s :: s in ToConstraint(n).side <==> s in n.side
    ensures n.version.None? ==>
              ToConstraint(n).version == {} && ToConstraint(n).min == UNKNOWN && ToConstraint(n).max == UNKNOWN
    ensures n.notVersion.None? ==>
              ToConstraint(n).notVersion == {} && ToConstraint(n).notMin == UNKNOWN && ToConstraint(n).notMax == UNKNOWN
  {
    assert Elements<MinecraftVersion>([]) == {};
  }

  // ---------------------------------------------------------------- @ReqDependency

  /** One `@ReqDependency` entry: "!x" demands that x is absent, any other id that it is loaded. */
  predicate DependencyMet(env: Environment, dep: string)
  {
    if StartsWith(dep, "!") then !env.modLoaded(dep[1..]) else env.modLoaded(dep)
  }

  predicate DependenciesMet(env: Environment, deps: seq<string>)
  {
    forall i :: 0 <= i < |deps| ==> DependencyMet(env, deps[i])
  }

  /** `checkReqDependency`: stops at the first entry that is not met. */
  method CheckReqDependency(env: Environment, deps: seq<string>) returns (r: bool)
    ensures r <==> DependenciesMet(env, deps)
  {
    if |deps| != 0 {
      for i := 0 to |deps|
        invariant forall j :: 0 <= j < i ==> DependencyMet(env, deps[j])
      {
        var dep := deps[i];
        if StartsWith(dep, "!") {
          var dependency := dep[1..];
          if env.modLoaded(dependency) {
            return false;
          }
        } else {
          if !env.modLoaded(dep) {
            return false;
          }
        }
      }
    }
    return true;
  }

  /** A negated entry conflicts exactly with a loaded mod of the name after the "!". */
  lemma NegatedDependency(env: Environment, id: string)
    ensures DependencyMet(env, "!" + id) <==> !env.modLoaded(id)
  {
    assert ("!" + id)[..1] == "!";
    assert ("!" + id)[1..] == id;
  }

  /** An entry without the "!" needs its mod loaded. */
  lemma PlainDependency(env: Environment, id: string)
    requires id == [] || id[0] != '!'
    ensures DependencyMet(env, id) <==> env.modLoaded(id)
  {
  }

  /**
   * A single required id behaves as a constraint whose only member is that
   * id; several ids differ: every entry is needed, where a constraint needs one.
   */
  lemma SingleDependencyAsConstraint(env: Environment, id: string)
    requires id == [] || id[0] != '!'
    ensures DependenciesMet(env, [id]) <==> EvalDeps(env, UNCONSTRAINED.(deps := {id}))
  {
    PlainDependency(env, id);
    assert [id][0] == id;
    assert IsModLoaded(env, {id}) <==> env.modLoaded(id) by {
      assert id in {id};
    }
  }

  // ---------------------------------------------------------------- @ReqMappings

  /** `checkReqMappings`: NONE passes, anything else must be what the environment's mappings are. */
  predicate MappingsMet(env: Environment, m: Mappings)
  {
    m == NONE || env.mappingsIs(m)
  }

  /**
   * When the environment's `is` is plain identity, `@ReqMappings` and the
   * constraint's mappings member agree.
   */
  lemma MappingsAgreeWithConstraint(env: Environment, m: Mappings)
    requires forall x :: env.mappingsIs(x) <==> x == env.mappings
    ensures MappingsMet(env, m) <==> EvalMappings(env, UNCONSTRAINED.(mappings := m))
  {
  }

  // ---------------------------------------------------------------- @ReqPlatform

  /** Every listed platform is present on its own and every "not" platform is absent. */
  predicate PlatformsMet(env: Environment, platforms: seq<Platform>, notPlatforms: seq<Platform>)
  {
    (forall i :: 0 <= i < |platforms| ==> env.platformPresent({platforms[i]}))
    && (forall i :: 0 <= i < |notPlatforms| ==> !env.platformPresent({notPlatforms[i]}))
  }

  /** `checkReqPlatform`: the required list first, then the forbidden list, each stopping early. */
  method CheckReqPlatform(env: Environment, platforms: seq<Platform>, notPlatforms: seq<Platform>)
    returns (r: bool)
    ensures r <==> PlatformsMet(env, platforms, notPlatforms)
  {
    if |platforms| != 0 {
      for i := 0 to |platforms|
        invariant forall j :: 0 <= j < i ==> env.platformPresent({platforms[j]})
      {
        if !env.platformPresent({platforms[i]}) {
          return false;
        }
      }
    }
    if |notPlatforms| != 0 {
      for i := 0 to |notPlatforms|
        invariant forall j :: 0 <= j < i ==> !env.platformPresent({notPlatforms[j]})
      {
        if env.platformPresent({notPlatforms[i]}) {
          return false;
        }
      }
    }
    return true;
  }

  /**
   * For one platform, `@ReqPlatform` agrees with the intended constraint
   * check, required and forbidden alike.
   */
  lemma PlatformAgreesWithConstraint(env: Environment, p: Platform)
    ensures PlatformsMet(env, [p], []) <==> EvalPlatform(env, UNCONSTRAINED.(platform := {p}))
    ensures PlatformsMet(env, [], [p]) <==> EvalPlatform(env, UNCONSTRAINED.(notPlatform := {p}))
  {
    assert [p][0] == p;
  }

  // ---------------------------------------------------------------- @ReqMCVersion

  /** `min` and `max` both left at UNKNOWN: no range is checked. */
  predicate NoRange(min: MinecraftVersion, max: MinecraftVersion)
  {
    min == UNKNOWN && max == UNKNOWN
  }

  /**
   * `checkReqMCVersion` in words: unless both bounds are UNKNOWN the current
   * version must be at least `min` and at most `max` by the comparator (an
   * UNKNOWN bound is then compared as the string "unknown"); a non-empty
   * list must contain a version the comparator finds equal.
   */
  predicate MCVersionMet(env: Environment, min: MinecraftVersion, max: MinecraftVersion,
                         versions: seq<MinecraftVersion>)
  {
    (NoRange(min, max)
     || (env.cmp(env.version.version, min.version) >= 0 && env.cmp(env.version.version, max.version) <= 0))
    && (versions == [] || exists i :: 0 <= i < |versions| && env.cmp(env.version.version, versions[i].version) == 0)
  }

  /** `checkReqMCVersion`: the range first, then the first matching listed version. */
  method CheckReqMCVersion(env: Environment, min: MinecraftVersion, max: MinecraftVersion,
                           versions: seq<MinecraftVersion>) returns (r: bool)
    ensures r <==> MCVersionMet(env, min, max, versions)
  {
    if !(min == UNKNOWN && max == UNKNOWN) {
      if !IsAtLeast(env.cmp, env.version, Some(Version(min))).value {
        return false;
      }
      if !IsAtMost(env.cmp, env.version, Some(Version(max))).value {
        return false;
      }
    }
    if |versions| != 0 {
      for i := 0 to |versions|
        invariant forall j :: 0 <= j < i ==> env.cmp(env.version.version, versions[j].version) != 0
      {
        if Is(env.cmp, env.version, Some(Version(versions[i]))).value {
          return true;
        }
      }
      return false;
    }
    return true;
  }

  /**
   * Unlike a constraint's range, a half-open `@ReqMCVersion` range is
   * checked: its UNKNOWN end is compared as the string "unknown".
   */
  lemma HalfRangeComparesUnknown(env: Environment, max: MinecraftVersion)
    requires max != UNKNOWN
    ensures MCVersionMet(env, UNKNOWN, max, []) <==>
              env.cmp(env.version.version, UNKNOWN_STRING) >= 0
              && env.cmp(env.version.version, max.version) <= 0
  {
  }

  /** With both bounds known, `@ReqMCVersion` and a constraint's range accept the same versions. */
  lemma RangeAgreesWithConstraint(env: Environment, min: MinecraftVersion, max: MinecraftVersion)
    requires min != UNKNOWN && max != UNKNOWN
    ensures MCVersionMet(env, min, max, []) <==> EvalVersion(env, UNCONSTRAINED.(min := min, max := max))
  {
    assert min.version != UNKNOWN_STRING && max.version != UNKNOWN_STRING;
  }

  // ---------------------------------------------------------------- @AConstraint(s)

  /**
   * `checkConstraint`: evaluates the node's constraint with the evaluator's
   * debug switch set to `verbose`, restoring the switch on both outcomes.
   */
  method CheckConstraint(ev: Evaluator, node: ConstraintNode, verbose: bool) returns (r: bool)
    requires ev.Valid()
    modifies ev
    ensures ev.Valid() && ev.debug == old(ev.debug)
    ensures r <==> Holds(ev.env, ToConstraint(node))
  {
    var debug := ev.debug;
    ev.debug := verbose;
    var ok := ev.Evaluate(ToConstraint(node));
    if !ok {
      ev.debug := debug;
      return false;
    }
    ev.debug := debug;
    return true;
  }

  /** The distinct elements of a set, in an order the model leaves open (hash order). */
  method Enumerate(s: set<Constraint>) returns (q: seq<Constraint>)
    ensures Distinct(q)
    ensures forall c :: c in q <==> c in s
  {
    q := [];
    var rest := s;
    while rest != {}
      invariant rest <= s
      invariant Distinct(q)
      invariant forall c :: c in q <==> c in s && c !in rest
      decreases |rest|
    {
      var c :| c in rest;
      q := q + [c];
      rest := rest - {c};
    }
  }

  /**
   * `checkConstraints`: the nodes' constraints, collected into a set, must all
   * hold; the debug switch is restored on both outcomes. Whether the set merges
   * any of them does not change the conjunction.
   */
  method CheckConstraints(ev: Evaluator, nodes: seq<ConstraintNode>, verbose: bool) returns (r: bool)
    requires ev.Valid()
    modifies ev
    ensures ev.Valid() && ev.debug == old(ev.debug)
    ensures r <==> forall i :: 0 <= i < |nodes| ==> Holds(ev.env, ToConstraint(nodes[i]))
  {
    var debug := ev.debug;
    ev.debug := verbose;
    var members := set i | 0 <= i < |nodes| :: ToConstraint(nodes[i]);
    var q := Enumerate(members);
    var constraints := new ConstraintSet(q, ev);
    var ok := constraints.Result();
    assert ok <==> forall c :: c in members ==> Holds(ev.env, c) by {
      forall c | c in members && ok
        ensures Holds(ev.env, c)
      {
        var k :| 0 <= k < |q| && q[k] == c;
      }
    }
    if !ok {
      ev.debug := debug;
      return false;
    }
    ev.debug := debug;
    return true;
  }

  // ---------------------------------------------------------------- checkAnnotations

  /** Whether one annotation lets the mixin apply; unrecognised annotations pass. */
  predicate Passes(env: Environment, a: AnnotationNode)
  {
    match a
    case ConstraintAnnotation(n) => Holds(env, ToConstraint(n))
    case ConstraintsAnnotation(ns) => forall i :: 0 <= i < |ns| ==> Holds(env, ToConstraint(ns[i]))
    case ReqDependency(ds) => DependenciesMet(env, ds)
    case ReqMappings(m) => MappingsMet(env, m)
    case ReqPlatform(ps, nps) => PlatformsMet(env, ps, nps)
    case ReqMCVersion(min, max, vs) => MCVersionMet(env, min, max, vs)
    case Unrecognised(_) => true
  }

  predicate AllPass(env: Environment, annotations: seq<AnnotationNode>)
  {
    forall i :: 0 <= i < |annotations| ==> Passes(env, annotations[i])
  }

  /** The check `checkAnnotations` runs for one annotation. */
  method CheckAnnotation(ev: Evaluator, a: AnnotationNode, verbose: bool) returns (r: bool)
    requires ev.Valid()
    modifies ev
    ensures ev.Valid() && ev.debug == old(ev.debug)
    ensures r <==> Passes(ev.env, a)
  {
    match a
    case ConstraintAnnotation(n) => r := CheckConstraint(ev, n, verbose);
    case ConstraintsAnnotation(ns) => r := CheckConstraints(ev, ns, verbose);
    case ReqDependency(ds) => r := CheckReqDependency(ev.env, ds);
    case ReqMappings(m) => r := m == NONE || ev.env.mappingsIs(m);
    case ReqPlatform(ps, nps) => r := CheckReqPlatform(ev.env, ps, nps);
    case ReqMCVersion(min, max, vs) => r := CheckReqMCVersion(ev.env, min, max, vs);
    case Unrecognised(_) => r := true;
  }

  /**
   * `checkAnnotations`: false at the first recognised annotation whose check
   * fails, true when none fails (an empty list included).
   */
  method CheckAnnotations(ev: Evaluator, annotations: seq<AnnotationNode>, verbose: bool) returns (r: bool)
    requires ev.Valid()
    modifies ev
    ensures ev.Valid() && ev.debug == old(ev.debug)
    ensures r <==> AllPass(ev.env, annotations)
  {
    for i := 0 to |annotations|
      invariant ev.Valid() && ev.debug == old(ev.debug)
      invariant forall j :: 0 <= j < i ==> Passes(ev.env, annotations[j])
    {
      var ok := CheckAnnotation(ev, annotations[i], verbose);
      if !ok {
        return false;
      }
    }
    return true;
  }

  /** A failing annotation anywhere rejects the mixin, whatever surrounds it. */
  lemma FailingAnnotationRejects(env: Environment, before: seq<AnnotationNode>, a: AnnotationNode,
                                 after: seq<AnnotationNode>)
    requires !Passes(env, a)
    ensures !AllPass(env, before + [a] + after)
  {
    assert (before + [a] + after)[|before|] == a;
  }

  /** Unrecognised annotations never change the outcome. */
  lemma UnrecognisedIgnored(env: Environment, annotations: seq<AnnotationNode>, desc: string)
    ensures AllPass(env, annotations + [Unrecognised(desc)]) <==> AllPass(env, annotations)
  {
    var extended := annotations + [Unrecognised(desc)];
    if AllPass(env, annotations) {
      forall i | 0 <= i < |extended|
        ensures Passes(env, extended[i])
      {
        if i < |annotations| {
          assert extended[i] == annotations[i];
        }
      }
    }
    if AllPass(env, extended) {
      forall i | 0 <= i < |annotations|
        ensures Passes(env, annotations[i])
      {
        assert extended[i] == annotations[i];
      }
    }
  }
}
