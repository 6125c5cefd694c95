/**
 * The Mixin integration: `MixinHacks` (installing an extension into the
 * Mixin transformer's extension lists), `MixinTransformer` (stripping
 * constraint annotations and failing fields and methods from a mixin class)
 * and `MuxinExtension` (the extension that runs the transformer on the mixins
 * of one package).
 *
 * The two annotation tests the transformer uses, `checkAnnotation` and
 * `isConstraintAnnotationNode`, are inputs (`Rules`).
 */
module Mixins {
  import opened Java
  import opened Strings
  import opened Annotations

  /** A Mixin transformer extension, as far as the list logic tells them apart. */
  datatype Extension =
    | Muxin(mixinPackage: string, verbose: bool)
    | CheckClass(name: string)
    | OtherExtension(name: string)

  /** `instanceof ExtensionCheckClass`. */
  predicate IsCheck(e: Extension)
  {
    e.CheckClass?
  }

  function Not<T>(p: T -> bool): T -> bool
  {
    x => !p(x)
  }

  /** The elements of `s` that satisfy `p`, in their order in `s`. */
  function Filter<T>(s: seq<T>, p: T -> bool): seq<T>
  {
    if s == [] then [] else Filter(s[..|s| - 1], p) + (if p(s[|s| - 1]) then [s[|s| - 1]] else [])
  }

  /** Splitting by a predicate and its negation loses and adds nothing. */
  lemma {:induction false} FilterPartition<T>(s: seq<T>, p: T -> bool)
    ensures multiset(Filter(s, Not(p))) + multiset(Filter(s, p)) == multiset(s)
  {
    if s != [] {
      FilterPartition(s[..|s| - 1], p);
      assert s == s[..|s| - 1] + [s[|s| - 1]];
    }
  }

  /** Everything `Filter` keeps satisfies the predicate. */
  lemma {:induction false} FilterSatisfies<T>(s: seq<T>, p: T -> bool)
    ensures forall i :: 0 <= i < |Filter(s, p)| ==> p(Filter(s, p)[i])
  {
    if s != [] {
      FilterSatisfies(s[..|s| - 1], p);
    }
  }

  /** A first element that satisfies the predicate stays first. */
  lemma {:induction false} FilterKeepsHead<T>(s: seq<T>, p: T -> bool)
    requires s != [] && p(s[0])
    ensures Filter(s, p) != [] && Filter(s, p)[0] == s[0]
  {
    if |s| > 1 {
      FilterKeepsHead(s[..|s| - 1], p);
    }
  }

  // ---------------------------------------------------------------- MixinHacks.addExtension

  /** The order `addExtension` leaves: the other extensions, then every check class, each in order. */
  function Reordered(s: seq<Extension>): seq<Extension>
  {
    Filter(s, Not(IsCheck)) + Filter(s, IsCheck)
  }

  /**
   * `addExtension`: puts the new extension first, then moves every
   * `ExtensionCheckClass` to the end, in the order the iteration meets them.
   */
  method AddExtension(extensions: seq<Extension>, newExtension: Extension) returns (r: seq<Extension>)
    ensures r == Reordered([newExtension] + extensions)
  {
    var list := [newExtension] + extensions;
    var kept: seq<Extension> := [];
    var lateExtensions: seq<Extension> := [];
    for i := 0 to |list|
      invariant kept == Filter(list[..i], Not(IsCheck))
      invariant lateExtensions == Filter(list[..i], IsCheck)
    {
      assert list[..i + 1][..i] == list[..i];
      if IsCheck(list[i]) {
        lateExtensions := lateExtensions + [list[i]];
      } else {
        kept := kept + [list[i]];
      }
    }
    assert list[..|list|] == list;
    r := kept + lateExtensions;
  }

  /** The new list holds the old extensions and the new one, nothing lost or repeated. */
  lemma AddExtensionIsPermutation(extensions: seq<Extension>, newExtension: Extension)
    ensures multiset(Reordered([newExtension] + extensions)) == multiset(extensions) + multiset{newExtension}
    ensures |Reordered([newExtension] + extensions)| == |extensions| + 1
  {
    FilterPartition([newExtension] + extensions, IsCheck);
    assert multiset([newExtension] + extensions) == multiset{newExtension} + multiset(extensions);
    assert |Reordered([newExtension] + extensions)| == |multiset(Reordered([newExtension] + extensions))|;
  }

  /** Check classes form the tail: an index holds one exactly when it is past the others. */
  lemma ChecksAtTail(s: seq<Extension>)
    ensures forall i :: 0 <= i < |Reordered(s)| ==>
              (IsCheck(Reordered(s)[i]) <==> i >= |Filter(s, Not(IsCheck))|)
  {
    FilterSatisfies(s, IsCheck);
    FilterSatisfies(s, Not(IsCheck));
    var front := Filter(s, Not(IsCheck));
    forall i | 0 <= i < |Reordered(s)|
      ensures IsCheck(Reordered(s)[i]) <==> i >= |front|
    {
      if i < |front| {
        assert Reordered(s)[i] == front[i];
        assert Not(IsCheck)(front[i]);
      } else {
        assert Reordered(s)[i] == Filter(s, IsCheck)[i - |front|];
      }
    }
  }

  /** An extension that is not a check class ends up first. */
  lemma NewExtensionFirst(extensions: seq<Extension>, newExtension: Extension)
    requires !IsCheck(newExtension)
    ensures Reordered([newExtension] + extensions)[0] == newExtension
  {
    FilterKeepsHead([newExtension] + extensions, Not(IsCheck));
  }

  /** The Mixin transformer's `Extensions` object and its two lists. */
  class Extensions {
    var extensions: seq<Extension>
    var activeExtensions: seq<Extension>

    constructor (extensions: seq<Extension>, activeExtensions: seq<Extension>)
      ensures this.extensions == extensions && this.activeExtensions == activeExtensions
    {
      this.extensions := extensions;
      this.activeExtensions := activeExtensions;
    }
  }

  /** The static state of `MixinHacks`: its `initialized` guard, over the transformer's extensions. */
  class MixinHacks {
    var initialized: bool
    /** How often `tryInit` has done its work. */
    ghost var initRuns: nat
    const target: Extensions

    ghost predicate Valid()
      reads this
    {
      initRuns == if initialized then 1 else 0
    }

    constructor (target: Extensions)
      ensures Valid() && !initialized && this.target == target
    {
      this.target := target;
      initialized := false;
      initRuns := 0;
    }

    /** `tryInit`: sets `initialized` and then does its work, only the first time. */
    method TryInit()
      requires Valid()
      modifies this`initialized, this`initRuns
      ensures Valid() && initialized
      ensures old(initialized) ==> initRuns == old(initRuns)
    {
      if initialized {
        return;
      }
      initialized := true;
      initRuns := initRuns + 1;
    }

    /**
     * `registerMixinExtension`: adds the extension to the extensions list in
     * place, and to a copy of the active list that then replaces it.
     */
    method RegisterMixinExtension(extension: Extension)
      requires Valid()
      modifies this`initialized, this`initRuns, target
      ensures Valid() && initialized
      ensures target.extensions == Reordered([extension] + old(target.extensions))
      ensures target.activeExtensions == Reordered([extension] + old(target.activeExtensions))
    {
      TryInit();
      var updated := AddExtension(target.extensions, extension);
      target.extensions := updated;
      var activeExtensions := target.activeExtensions;
      activeExtensions := AddExtension(activeExtensions, extension);
      target.activeExtensions := activeExtensions;
    }
  }

  // ---------------------------------------------------------------- MixinTransformer

  /** The annotation tests the transformer is given: `checkAnnotation` and `isConstraintAnnotationNode`. */
  datatype Rules = Rules(check: AnnotationNode -> bool, isConstraint: AnnotationNode -> bool)

  /** A field or method node: its name and its visible annotations, which may be absent. */
  datatype Target = Target(name: string, annotations: Option<seq<AnnotationNode>>)

  /** The index of the first annotation at or after `from` that fails the check, or -1. */
  function FirstFailureFrom(annotations: seq<AnnotationNode>, check: AnnotationNode -> bool, from: nat): (k: int)
    ensures k == -1 || (from <= k < |annotations| && !check(annotations[k]))
    ensures forall j :: from <= j < |annotations| && (k == -1 || j < k) ==> check(annotations[j])
    decreases |annotations| - from
  {
    if from >= |annotations| then -1
    else if !check(annotations[from]) then from
    else FirstFailureFrom(annotations, check, from + 1)
  }

  function FirstFailure(annotations: seq<AnnotationNode>, check: AnnotationNode -> bool): int
  {
    FirstFailureFrom(annotations, check, 0)
  }

  /** The annotations left in place: no constraint annotation, and not the one at index `skip`. */
  function Surviving(annotations: seq<AnnotationNode>, isConstraint: AnnotationNode -> bool, skip: int): seq<AnnotationNode>
  {
    if annotations == [] then []
    else
      var last := |annotations| - 1;
      Surviving(annotations[..last], isConstraint, skip)
      + (if !isConstraint(annotations[last]) && last != skip then [annotations[last]] else [])
  }

  /** An annotation survives exactly when it sits at another index than `skip` and is no constraint. */
  lemma {:induction false} SurvivingMeaning(annotations: seq<AnnotationNode>, isConstraint: AnnotationNode -> bool,
                                            skip: int, a: AnnotationNode)
    ensures a in Surviving(annotations, isConstraint, skip) <==>
              exists i :: 0 <= i < |annotations| && i != skip && annotations[i] == a && !isConstraint(a)
  {
    if annotations != [] {
      var last := |annotations| - 1;
      var init := annotations[..last];
      var tail := if !isConstraint(annotations[last]) && last != skip then [annotations[last]] else [];
      assert Surviving(annotations, isConstraint, skip) == Surviving(init, isConstraint, skip) + tail;
      SurvivingMeaning(init, isConstraint, skip, a);
      if a in Surviving(init, isConstraint, skip) {
        var i :| 0 <= i < |init| && i != skip && init[i] == a && !isConstraint(a);
        assert annotations[i] == a;
      }
      if exists i :: 0 <= i < |annotations| && i != skip && annotations[i] == a && !isConstraint(a) {
        var i :| 0 <= i < |annotations| && i != skip && annotations[i] == a && !isConstraint(a);
        if i < last {
          assert init[i] == a;
        } else {
          assert a in tail;
        }
      }
    }
  }

  /** No constraint annotation survives. */
  lemma NoConstraintSurvives(annotations: seq<AnnotationNode>, isConstraint: AnnotationNode -> bool, skip: int)
    ensures forall a :: a in Surviving(annotations, isConstraint, skip) ==> !isConstraint(a)
  {
    forall a | a in Surviving(annotations, isConstraint, skip)
      ensures !isConstraint(a)
    {
      SurvivingMeaning(annotations, isConstraint, skip, a);
    }
  }

  /** `removeIf(isConstraintAnnotationNode)` on a list of annotations. */
  method RemoveConstraintAnnotations(annotations: seq<AnnotationNode>, isConstraint: AnnotationNode -> bool)
    returns (r: seq<AnnotationNode>)
    ensures r == Surviving(annotations, isConstraint, -1)
  {
    r := [];
    for i := 0 to |annotations|
      invariant r == Surviving(annotations[..i], isConstraint, -1)
    {
      assert annotations[..i + 1][..i] == annotations[..i];
      if !isConstraint(annotations[i]) {
        r := r + [annotations[i]];
      }
    }
    assert annotations[..|annotations|] == annotations;
  }

  /**
   * `shouldRemoveTarget`: true when some annotation fails its check; the
   * first failing annotation and every constraint annotation are removed
   * from the list as it is walked.
   */
  method ShouldRemoveTarget(rules: Rules, annotations: Option<seq<AnnotationNode>>)
    returns (remove: bool, after: Option<seq<AnnotationNode>>)
    ensures annotations.None? ==> !remove && after.None?
    ensures annotations.Some? ==>
              (remove <==> FirstFailure(annotations.value, rules.check) != -1)
              && after == Some(Surviving(annotations.value, rules.isConstraint,
                                         FirstFailure(annotations.value, rules.check)))
  {
    if annotations.None? {
      return false, None;
    }
    var list := annotations.value;
    var k := FirstFailure(list, rules.check);
    remove := false;
    var kept: seq<AnnotationNode> := [];
    for i := 0 to |list|
      invariant remove <==> k != -1 && k < i
      invariant kept == Surviving(list[..i], rules.isConstraint, k)
    {
      assert list[..i + 1][..i] == list[..i];
      var annotationNode := list[i];
      if !remove && !rules.check(annotationNode) {
        remove := true;
      } else if rules.isConstraint(annotationNode) {
      } else {
        kept := kept + [annotationNode];
      }
    }
    assert list[..|list|] == list;
    after := Some(kept);
  }

  /** `shouldRemoveTarget` removes a target exactly when one of its annotations fails. */
  lemma RemovedIffSomeAnnotationFails(rules: Rules, annotations: seq<AnnotationNode>)
    ensures FirstFailure(annotations, rules.check) != -1 <==>
              exists i :: 0 <= i < |annotations| && !rules.check(annotations[i])
  {
  }

  /** A target `transform` drops. */
  predicate Removed(rules: Rules, t: Target)
  {
    t.annotations.Some? && FirstFailure(t.annotations.value, rules.check) != -1
  }

  /** A kept target, with the annotations `shouldRemoveTarget` left it. */
  function Stripped(rules: Rules, t: Target): Target
  {
    match t.annotations
    case None => t
    case Some(list) => t.(annotations := Some(Surviving(list, rules.isConstraint, FirstFailure(list, rules.check))))
  }

  /** The targets `removeIf(shouldRemoveTarget)` keeps, stripped, in their order. */
  function KeptTargets(rules: Rules, targets: seq<Target>): seq<Target>
  {
    if targets == [] then []
    else
      var last := targets[|targets| - 1];
      KeptTargets(rules, targets[..|targets| - 1]) + (if Removed(rules, last) then [] else [Stripped(rules, last)])
  }

  /** A kept target is a stripped input target that had no failing annotation, and conversely. */
  lemma {:induction false} KeptTargetsMeaning(rules: Rules, targets: seq<Target>, t: Target)
    ensures t in KeptTargets(rules, targets) <==>
              exists i :: 0 <= i < |targets| && !Removed(rules, targets[i]) && t == Stripped(rules, targets[i])
  {
    if targets != [] {
      var init := targets[..|targets| - 1];
      KeptTargetsMeaning(rules, init, t);
      if exists i :: 0 <= i < |targets| && !Removed(rules, targets[i]) && t == Stripped(rules, targets[i]) {
        var i :| 0 <= i < |targets| && !Removed(rules, targets[i]) && t == Stripped(rules, targets[i]);
        if i < |targets| - 1 {
          assert init[i] == targets[i];
        }
      }
    }
  }

  /** `removeIf` over the fields or the methods, stripping the survivors' annotations on the way. */
  method RemoveTargets(rules: Rules, targets: seq<Target>) returns (r: seq<Target>)
    ensures r == KeptTargets(rules, targets)
  {
    r := [];
    for i := 0 to |targets|
      invariant r == KeptTargets(rules, targets[..i])
    {
      assert targets[..i + 1][..i] == targets[..i];
      var remove, after := ShouldRemoveTarget(rules, targets[i].annotations);
      if !remove {
        r := r + [targets[i].(annotations := after)];
      }
    }
    assert targets[..|targets|] == targets;
  }

  /** The parts of a class node `transform` changes. */
  datatype NodeState = NodeState(visibleAnnotations: Option<seq<AnnotationNode>>,
                                 fields: seq<Target>, methods: seq<Target>)

  /** What `transform` makes of a class node. */
  function Transformed(rules: Rules, s: NodeState): NodeState
  {
    NodeState(
      if s.visibleAnnotations.Some? then Some(Surviving(s.visibleAnnotations.value, rules.isConstraint, -1)) else None,
      KeptTargets(rules, s.fields),
      KeptTargets(rules, s.methods))
  }

  /** No target `removeIf` keeps carries a constraint annotation any more. */
  lemma KeptTargetsHaveNoConstraints(rules: Rules, targets: seq<Target>)
    ensures forall t :: t in KeptTargets(rules, targets) && t.annotations.Some? ==>
              forall a :: a in t.annotations.value ==> !rules.isConstraint(a)
  {
    forall t | t in KeptTargets(rules, targets) && t.annotations.Some?
      ensures forall a :: a in t.annotations.value ==> !rules.isConstraint(a)
    {
      KeptTargetsMeaning(rules, targets, t);
      var i :| 0 <= i < |targets| && !Removed(rules, targets[i]) && t == Stripped(rules, targets[i]);
      var list := targets[i].annotations.value;
      NoConstraintSurvives(list, rules.isConstraint, FirstFailure(list, rules.check));
    }
  }

  /** After `transform`, no constraint annotation is left at class level or on a kept field or method. */
  lemma TransformedHasNoConstraints(rules: Rules, s: NodeState)
    ensures Transformed(rules, s).visibleAnnotations.Some? ==>
              forall a :: a in Transformed(rules, s).visibleAnnotations.value ==> !rules.isConstraint(a)
    ensures forall t :: t in Transformed(rules, s).fields && t.annotations.Some? ==>
              forall a :: a in t.annotations.value ==> !rules.isConstraint(a)
    ensures forall t :: t in Transformed(rules, s).methods && t.annotations.Some? ==>
              forall a :: a in t.annotations.value ==> !rules.isConstraint(a)
  {
    if s.visibleAnnotations.Some? {
      NoConstraintSurvives(s.visibleAnnotations.value, rules.isConstraint, -1);
    }
    KeptTargetsHaveNoConstraints(rules, s.fields);
    KeptTargetsHaveNoConstraints(rules, s.methods);
  }

  /** A mixin class node, changed in place by `transform`. */
  class ClassNode {
    var visibleAnnotations: Option<seq<AnnotationNode>>
    var fields: seq<Target>
    var methods: seq<Target>

    function State(): NodeState
      reads this
    {
      NodeState(visibleAnnotations, fields, methods)
    }

    constructor (s: NodeState)
      ensures State() == s
    {
      visibleAnnotations, fields, methods := s.visibleAnnotations, s.fields, s.methods;
    }

    /** `MixinTransformer.transform`. */
    method Transform(rules: Rules)
      modifies this
      ensures State() == Transformed(rules, old(State()))
    {
      if visibleAnnotations.Some? {
        var stripped := RemoveConstraintAnnotations(visibleAnnotations.value, rules.isConstraint);
        visibleAnnotations := Some(stripped);
      }
      var keptFields := RemoveTargets(rules, fields);
      fields := keptFields;
      var keptMethods := RemoveTargets(rules, methods);
      methods := keptMethods;
    }
  }

  // ---------------------------------------------------------------- MuxinExtension

  /** `new MuxinExtension(mixinPackage, verbose)`: the package is stored ending in ".". */
  function NewMuxinExtension(mixinPackage: string, verbose: bool): (e: Extension)
    ensures e.Muxin? && e.verbose == verbose
    ensures EndsWith(e.mixinPackage, ".")
  {
    Muxin(if EndsWith(mixinPackage, ".") then mixinPackage else mixinPackage + ".", verbose)
  }

  /** The "." is appended only when missing: the given package is kept as a prefix, and normalising twice changes nothing. */
  lemma PackageNormalisation(mixinPackage: string, verbose: bool)
    ensures StartsWith(NewMuxinExtension(mixinPackage, verbose).mixinPackage, mixinPackage)
    ensures |NewMuxinExtension(mixinPackage, verbose).mixinPackage| == |mixinPackage| + (if EndsWith(mixinPackage, ".") then 0 else 1)
    ensures NewMuxinExtension(NewMuxinExtension(mixinPackage, verbose).mixinPackage, verbose)
            == NewMuxinExtension(mixinPackage, verbose)
  {
    var p := NewMuxinExtension(mixinPackage, verbose).mixinPackage;
    assert p[..|mixinPackage|] == mixinPackage;
  }

  /** `checkActive`: the extension never reports itself active. */
  function CheckActive(e: Extension): (r: bool)
    requires e.Muxin?
    ensures !r
  {
    false
  }

  /** A mixin's `IMixinInfo`, reduced to its config's package. */
  datatype MixinInfo = MixinInfo(className: string, mixinPackage: string)

  /** A pair `getMixinsFor` yields. */
  datatype MixinTarget = MixinTarget(info: MixinInfo, node: ClassNode)

  /**
   * `preApply`: transforms the class node of exactly the mixins whose config
   * package is the extension's package.
   */
  method PreApply(e: Extension, rules: Rules, mixins: seq<MixinTarget>)
    requires e.Muxin?
    requires forall i, j :: 0 <= i < j < |mixins| ==> mixins[i].node != mixins[j].node
    modifies set i | 0 <= i < |mixins| :: mixins[i].node
    ensures forall i :: 0 <= i < |mixins| ==>
              mixins[i].node.State() == if mixins[i].info.mixinPackage == e.mixinPackage
                                       then Transformed(rules, old(mixins[i].node.State()))
                                       else old(mixins[i].node.State())
  {
    for i := 0 to |mixins|
      invariant forall j :: 0 <= j < i ==>
                  mixins[j].node.State() == if mixins[j].info.mixinPackage == e.mixinPackage
                                           then Transformed(rules, old(mixins[j].node.State()))
                                           else old(mixins[j].node.State())
      invariant forall j :: i <= j < |mixins| ==> mixins[j].node.State() == old(mixins[j].node.State())
    {
      if mixins[i].info.mixinPackage == e.mixinPackage {
        mixins[i].node.Transform(rules);
      }
    }
  }
}

/**
 * `Muxins`: the once-per-package bootstrap and the decision whether a mixin
 * is applied, from the disabled list and the class's annotations.
 */
module Muxins {
  import opened Java
  import opened Strings
  import opened Constraints
  import opened Annotations
  import opened Mixins

  /** The static set `initializedMixinPackages`, over the `MixinHacks` it registers with. */
  class Bootstrapper {
    var initializedMixinPackages: set<string>
    const hacks: MixinHacks

    constructor (hacks: MixinHacks)
      ensures initializedMixinPackages == {} && this.hacks == hacks
    {
      this.hacks := hacks;
      initializedMixinPackages := {};
    }

    /**
     * `bootstrap(mixinPackage, verbose)`: the first call for a package
     * registers a `MuxinExtension` for it; later calls change nothing.
     */
    method Bootstrap(mixinPackage: string, verbose: bool)
      requires hacks.Valid()
      modifies this, hacks, hacks.target
      ensures hacks.Valid()
      ensures initializedMixinPackages == old(initializedMixinPackages) + {mixinPackage}
      ensures mixinPackage in old(initializedMixinPackages) ==>
                hacks.target.extensions == old(hacks.target.extensions)
                && hacks.target.activeExtensions == old(hacks.target.activeExtensions)
      ensures mixinPackage !in old(initializedMixinPackages) ==>
                hacks.target.extensions
                == Reordered([NewMuxinExtension(mixinPackage, verbose)] + old(hacks.target.extensions))
                && hacks.target.activeExtensions
                   == Reordered([NewMuxinExtension(mixinPackage, verbose)] + old(hacks.target.activeExtensions))
    {
      if mixinPackage in initializedMixinPackages {
        return;
      }
      initializedMixinPackages := initializedMixinPackages + {mixinPackage};
      hacks.RegisterMixinExtension(NewMuxinExtension(mixinPackage, verbose));
    }

    /** `bootstrap(mixinPackage)`: the quiet form. */
    method BootstrapQuiet(mixinPackage: string)
      requires hacks.Valid()
      modifies this, hacks, hacks.target
      ensures hacks.Valid()
      ensures initializedMixinPackages == old(initializedMixinPackages) + {mixinPackage}
      ensures mixinPackage in old(initializedMixinPackages) ==>
                hacks.target.extensions == old(hacks.target.extensions)
                && hacks.target.activeExtensions == old(hacks.target.activeExtensions)
      ensures mixinPackage !in old(initializedMixinPackages) ==>
                hacks.target.extensions
                == Reordered([NewMuxinExtension(mixinPackage, false)] + old(hacks.target.extensions))
                && hacks.target.activeExtensions
                   == Reordered([NewMuxinExtension(mixinPackage, false)] + old(hacks.target.activeExtensions))
    {
      Bootstrap(mixinPackage, false);
    }
  }

  /** What loading the mixin's class node gives: a failure, or its visible annotations, which may be absent. */
  datatype ClassLookup = NotFound | Loaded(visibleAnnotations: Option<seq<AnnotationNode>>)

  /** The mixin's name ends with some disabled entry. */
  predicate Disabled(mixinClassName: string, disabledMixins: seq<string>)
  {
    exists i :: 0 <= i < |disabledMixins| && EndsWith(mixinClassName, disabledMixins[i])
  }

  /**
   * `shouldApplyMixin` in words: when the class loads with annotations their
   * check decides alone; otherwise the mixin applies unless it is disabled.
   */
  predicate Applies(env: Environment, mixinClassName: string, disabledMixins: seq<string>, lookup: ClassLookup)
  {
    if lookup.Loaded? && lookup.visibleAnnotations.Some? then AllPass(env, lookup.visibleAnnotations.value)
    else !Disabled(mixinClassName, disabledMixins)
  }

  /** `shouldApplyMixin(mixinClassName, disabledMixins, verbose)`. */
  method ShouldApplyMixin(ev: Evaluator, mixinClassName: string, disabledMixins: seq<string>,
                          lookup: ClassLookup, verbose: bool) returns (r: bool)
    requires ev.Valid()
    modifies ev
    ensures ev.Valid() && ev.debug == old(ev.debug)
    ensures r <==> Applies(ev.env, mixinClassName, disabledMixins, lookup)
  {
    var result := true;
    for i := 0 to |disabledMixins|
      invariant result <==> !exists j :: 0 <= j < i && EndsWith(mixinClassName, disabledMixins[j])
    {
      if EndsWith(mixinClassName, disabledMixins[i]) {
        result := false;
      }
    }
    if lookup.Loaded? {
      if lookup.visibleAnnotations.Some? {
        result := CheckAnnotations(ev, lookup.visibleAnnotations.value, verbose);
      }
    }
    return result;
  }

  /** `shouldApplyMixin(mixinClassName)`: no disabled list, not verbose. */
  method ShouldApplyMixinByName(ev: Evaluator, mixinClassName: string, lookup: ClassLookup) returns (r: bool)
    requires ev.Valid()
    modifies ev
    ensures ev.Valid() && ev.debug == old(ev.debug)
    ensures r <==> Applies(ev.env, mixinClassName, [], lookup)
  {
    r := ShouldApplyMixin(ev, mixinClassName, [], lookup, false);
  }

  /** `shouldApplyMixin(mixinClassName, verbose)`: no disabled list. */
  method ShouldApplyMixinVerbose(ev: Evaluator, mixinClassName: string, lookup: ClassLookup, verbose: bool)
    returns (r: bool)
    requires ev.Valid()
    modifies ev
    ensures ev.Valid() && ev.debug == old(ev.debug)
    ensures r <==> Applies(ev.env, mixinClassName, [], lookup)
  {
    r := ShouldApplyMixin(ev, mixinClassName, [], lookup, verbose);
  }

  /** `shouldApplyMixin(mixinClassName, disabledMixins)`: not verbose. */
  method ShouldApplyMixinUnlessDisabled(ev: Evaluator, mixinClassName: string, disabledMixins: seq<string>,
                                        lookup: ClassLookup) returns (r: bool)
    requires ev.Valid()
    modifies ev
    ensures ev.Valid() && ev.debug == old(ev.debug)
    ensures r <==> Applies(ev.env, mixinClassName, disabledMixins, lookup)
  {
    r := ShouldApplyMixin(ev, mixinClassName, disabledMixins, lookup, false);
  }

  /** A disabled mixin whose annotations all pass is applied all the same. */
  lemma AnnotationsOverrideDisabled(env: Environment, mixinClassName: string, disabledMixins: seq<string>,
                                    annotations: seq<AnnotationNode>)
    requires AllPass(env, annotations)
    ensures Applies(env, mixinClassName, disabledMixins, Loaded(Some(annotations)))
  {
  }

  /** When the class cannot be loaded, or has no annotations, a disabled entry decides. */
  lemma DisabledDecidesWithoutAnnotations(env: Environment, mixinClassName: string, disabledMixins: seq<string>,
                                          lookup: ClassLookup)
    requires lookup.NotFound? || lookup.visibleAnnotations.None?
    ensures Applies(env, mixinClassName, disabledMixins, lookup) <==> !Disabled(mixinClassName, disabledMixins)
  {
  }

  /** A suffix match disables: the exact name and any shorter tail of it. */
  lemma SuffixDisables(env: Environment, prefix: string, entry: string)
    ensures !Applies(env, prefix + entry, [entry], NotFound)
  {
    assert (prefix + entry)[|prefix + entry| - |entry|..] == entry;
    assert EndsWith(prefix + entry, [entry][0]);
  }
}
