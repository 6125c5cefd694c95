# TaterLibLite core, modelled in Dafny

TaterLibLite is a Java library for Minecraft mods and plugins that run on many loader platforms (Forge, NeoForge, Fabric, Bukkit and its forks, BungeeCord, Velocity, Sponge and others). This project models the sequential logic at its heart and proves what that logic promises:

- **Wire encoding** (`varlong.dfy`, `buffers.dfy`, `codecs.dfy`, `payloads.dfy`, `login.dfy`). The Minecraft VarLong is a little-endian base-128 varint of at most ten bytes. `read` and `write` are loops over a byte buffer, proved against a recursive encoding with a round trip. The custom-payload and login query codecs are built from stream codecs, and each read/write pair is proved to round-trip.
- **Versions** (`versions.dfy`). Every relation of `VersionComparable` (newer, older, at least, at most, in range, open or closed) is derived from one comparator, with `"unknown"` as an unbounded range end. Also modelled: `MinecraftVersions.of`, `MinecraftVersion.parseRange`, `Type.fromInt`, and the `equals`/`toString` of `MinecraftVersionImpl`.
- **Constraints** (`constraints.dfy`). The `Constraint.Builder` accumulates sets and overwrites scalar fields. `Constraint.from` translates the annotations. The `Evaluator` is a short-circuit conjunction of five checks with a result cache. `Constraints` memoises an all-match.
- **Platforms** (`platforms.dfy`). Detection runs priority chains that add a derivative together with its parents. A priority function picks the primary platform. Layering builds an insertion-ordered, duplicate-free list.
- **Mixin gating** (`annotations.dfy`, `mixins.dfy`). Covered: `AnnotationChecker`; the Muxins bootstrap and the suffix-based disabling of mixins; `MixinHacks.addExtension`; `MixinTransformer`, which strips constraint annotations and removes failing fields and methods; `MuxinExtension`.
- **Registries** (`protocol.dfy`, `registries.dfy`, `results.dfy`). Covered: the packet registries of each connection phase; the query and answer codec tables of `NetworkRegistry`; the two adapter registries with their different duplicate rules; the reversible-codec views; the two wrapper registries; the `Result` sum type.
- **Loaders** (`loaders.dfy`). Covered:
  - service-file parsing;
  - the choice between the `ServiceLoader` and explicit provider classes, including the Forge 1.14.2–1.16.2 workaround;
  - constraint filtering that keeps discovery order;
  - in-order lifecycle hooks, for both the `loader` and the `plugin` packages.
- **Small state machines** (`resources.dfy`, `events.dfy`). Covered: the reference-counted jar file system of `ModResourceImpl`; the string logic of `PathUtils`; cancellation, where a Mixin callback once cancelled stays cancelled.

Java exceptions are values of `Java.Except` (`Ok` or `Throw` of an exception kind and message). Java code that is not part of this model enters as function-typed parameters; nothing is invented for it. This covers:

- the FlexVer comparator and `VersionUtil.Range.parse`;
- `Constraint.range(...).result()`;
- the platform `detect` probes;
- `isModLoaded` and `isPlatformPresent`, and the mappings, side and version of the running game;
- the FriendlyByteBuf primitives;
- `checkAnnotation` and `isConstraintAnnotationNode`;
- `Class.forName`, reflective construction and `getClass`;
- service-file contents and `ServiceLoader` discovery;
- the `FileSystems` outcome and the operating-system test.

Static state is a passed object: the evaluator cache, the platform registry, the bootstrapped-package set, the Mixin hacks and the network registry. Where the source iterates a hash set, the order is mostly left open, either as a sequence in whatever order the set yields or as a `:|` choice. The two adapter registries are the exception: they hold their codecs in registration order, and "## Left out" says what that fixes.

## Model

| member | source | states |
|---|---|---|
| VarLong.HasContinuationBit | core/src/main/java/dev/neuralnexus/taterapi/network/VarLong.java:32-34 | a byte continues a VarLong exactly when its top bit (128) is set |
| VarLong.GetByteSize | core/src/main/java/dev/neuralnexus/taterapi/network/VarLong.java:22-30 | the size is between 1 and 10, it is the first i whose mask test `v & -1L << 7i == 0` passes, and it equals the number of bytes `write` emits for the same value |
| VarLong.EncodeFits | core/src/main/java/dev/neuralnexus/taterapi/network/VarLong.java:22-30 | the mask test for k passes exactly when the encoding of the value has at most k bytes |
| VarLong.ByteSizeIsLeastBound | core/src/main/java/dev/neuralnexus/taterapi/network/VarLong.java:22-30 | the size is the least i below ten for which the value, read as an unsigned 64-bit number, is below 2^(7i), and ten when there is none |
| VarLong.NegativeTakesTen | core/src/main/java/dev/neuralnexus/taterapi/network/VarLong.java:22-30 | a negative long always takes the full ten bytes |
| VarLong.Write | core/src/main/java/dev/neuralnexus/taterapi/network/VarLong.java:52-59 | appends exactly the encoding of the value to the buffer, leaves the reader index alone and returns the same buffer |
| VarLong.EncodeShape | core/src/main/java/dev/neuralnexus/taterapi/network/VarLong.java:52-59 | the encoding is non-empty and every byte but the last carries the continuation bit |
| VarLong.EncodeGroup | core/src/main/java/dev/neuralnexus/taterapi/network/VarLong.java:52-59 | byte j of the encoding carries the j-th seven-bit group of the value, least significant first |
| VarLong.EncodeBounds | core/src/main/java/dev/neuralnexus/taterapi/network/VarLong.java:17-20 | every encoding has between 1 and MAX_VARLONG_SIZE (10) bytes |
| VarLong.DecEncode | core/src/main/java/dev/neuralnexus/taterapi/network/VarLong.java:52-59 | putting the seven-bit groups of the encoding back together gives the value |
| VarLong.ContinuedPrefix | core/src/main/java/dev/neuralnexus/taterapi/network/VarLong.java:41-47 | the count of leading continued bytes is bounded by the cap and the input, all of them carry the continuation bit, and the next one (if inside both bounds) does not |
| VarLong.Read | core/src/main/java/dev/neuralnexus/taterapi/network/VarLong.java:36-50 | the result and the bytes consumed are those of the read specification on the unread bytes; the buffer's contents do not change |
| VarLong.ReadStopsAtFirstClear | core/src/main/java/dev/neuralnexus/taterapi/network/VarLong.java:41-47 | reading stops right after the first byte without the continuation bit and returns the value of the groups read |
| VarLong.ReadTooBig | core/src/main/java/dev/neuralnexus/taterapi/network/VarLong.java:44-46 | ten continued bytes followed by an eleventh raise "VarLong too big" after consuming eleven bytes |
| VarLong.ReadRunsOut | core/src/main/java/dev/neuralnexus/taterapi/network/VarLong.java:42 | running out of bytes while every byte read so far continues is an index error |
| VarLong.AccumulatedIsDec | core/src/main/java/dev/neuralnexus/taterapi/network/VarLong.java:43 | the loop's `l \|= (b & 127) << 7i` accumulation equals the value of the groups read |
| VarLong.ReadWriteRoundTrip | core/src/main/java/dev/neuralnexus/taterapi/network/VarLong.java:36-59 | reading what `write` appended gives back the value and consumes exactly those bytes, whatever follows |
| Versions.CompareTo | metadata/src/main/java/dev/neuralnexus/taterapi/meta/version/VersionComparable.java:26-30 | a null argument throws "version cannot be null"; otherwise the result is the FlexVer comparison of the two version strings |
| Versions.Is | metadata/src/main/java/dev/neuralnexus/taterapi/meta/version/VersionComparable.java:38-52 | throws exactly on null; otherwise true exactly when the versions compare equal |
| Versions.IsNewerThan | metadata/src/main/java/dev/neuralnexus/taterapi/meta/version/VersionComparable.java:174-188 | throws exactly on null; otherwise true exactly when the comparison is positive |
| Versions.IsAtLeast | metadata/src/main/java/dev/neuralnexus/taterapi/meta/version/VersionComparable.java:196-210 | throws exactly on null; otherwise true exactly when the comparison is not negative |
| Versions.IsOlderThan | metadata/src/main/java/dev/neuralnexus/taterapi/meta/version/VersionComparable.java:218-232 | throws exactly on null; otherwise true exactly when the comparison is negative |
| Versions.IsAtMost | metadata/src/main/java/dev/neuralnexus/taterapi/meta/version/VersionComparable.java:240-254 | throws exactly on null; otherwise true exactly when the comparison is not positive |
| Versions.AtLeastIsNotOlder | metadata/src/main/java/dev/neuralnexus/taterapi/meta/version/VersionComparable.java:196-232 | `isAtLeast` is the negation of `isOlderThan` on every argument, and both throw on the same ones |
| Versions.AtMostIsNotNewer | metadata/src/main/java/dev/neuralnexus/taterapi/meta/version/VersionComparable.java:174-254 | `isAtMost` is the negation of `isNewerThan` on every argument, and both throw on the same ones |
| Versions.VersionOverloadsAgree | metadata/src/main/java/dev/neuralnexus/taterapi/meta/version/VersionComparable.java:26-254 | each overload taking a version answers as the `String` overload given that version's string, and `is(T)` is `compareTo(T) == 0` |
| Versions.IsInRange | metadata/src/main/java/dev/neuralnexus/taterapi/meta/version/VersionComparable.java:63-112 | throws exactly when an end is null, with the message naming the first null end |
| Versions.InRangeIsInterval | metadata/src/main/java/dev/neuralnexus/taterapi/meta/version/VersionComparable.java:63-112 | `isInRange` is membership of the interval its flags and ends describe, with the exact string "unknown" leaving that side unbounded |
| Versions.UnknownEndsAdmitAll | metadata/src/main/java/dev/neuralnexus/taterapi/meta/version/VersionComparable.java:71-79 | with both ends "unknown" every version is in range, whatever the inclusivity flags |
| Versions.IsInRangeClosed | metadata/src/main/java/dev/neuralnexus/taterapi/meta/version/VersionComparable.java:121-157 | throws exactly when an end is null |
| Versions.ClosedRangeIsInclusive | metadata/src/main/java/dev/neuralnexus/taterapi/meta/version/VersionComparable.java:121-157 | the two-argument `isInRange` is the four-argument one with both ends inclusive |
| Versions.Of | metadata/src/main/java/dev/neuralnexus/taterapi/meta/MinecraftVersions.java:26-31 | a string containing "(MC: 1.7.3)" gives the shared Beta 1.7.3 constant; any other string gives a version holding exactly that string |
| Versions.BetaMarkerAnywhere | metadata/src/main/java/dev/neuralnexus/taterapi/meta/MinecraftVersions.java:27-29 | the marker is recognised wherever it sits in the string |
| Versions.ToString | metadata/src/main/java/dev/neuralnexus/taterapi/meta/impl/version/MinecraftVersionImpl.java:27-30 | the printed string is the version string the value holds, and `of` applied to the printed string gives the version back unless the string holds the Beta marker |
| Versions.ToStringOfRoundTrip | metadata/src/main/java/dev/neuralnexus/taterapi/meta/impl/version/MinecraftVersionImpl.java:15-30 | printing a version made by `of` gives its string back, unless it was the Beta 1.7.3 case |
| Versions.Equals | metadata/src/main/java/dev/neuralnexus/taterapi/meta/impl/version/MinecraftVersionImpl.java:19-25 | null and objects of another class are never equal; another version is equal exactly when `is` says so |
| Versions.EqualsReflexive | metadata/src/main/java/dev/neuralnexus/taterapi/meta/impl/version/MinecraftVersionImpl.java:21 | a version equals itself through the reference check, whatever the comparator says |
| Versions.ParseRange | metadata/src/main/java/dev/neuralnexus/taterapi/meta/MinecraftVersion.java:41-55 | throws exactly on a null string; a string that does not parse as a range is compared with `is` |
| Versions.ParseRangeIsInterval | metadata/src/main/java/dev/neuralnexus/taterapi/meta/MinecraftVersion.java:41-55 | a parsed range is membership of the interval its ends describe, with the inclusivity flags kept and a missing end unbounded |
| Versions.FromInt | metadata/src/main/java/dev/neuralnexus/taterapi/meta/MinecraftVersion.java:129-138 | the result is a known type exactly when the integer is between 1 and 5 |
| Versions.FromIntInvertsOrdinal | metadata/src/main/java/dev/neuralnexus/taterapi/meta/MinecraftVersion.java:121-138 | `fromInt` inverts the ordinal on every known type, and the ordinal inverts `fromInt` on 1 to 5 |
| Platforms.FirstFromIsFirstDetected | metadata/src/main/java/dev/neuralnexus/taterapi/meta/Platforms.java:62-83 | in an if/else-if detection chain exactly the first detected branch fires and adds its platforms; no detected branch adds nothing |
| Platforms.FirstFromWithin | metadata/src/main/java/dev/neuralnexus/taterapi/meta/Platforms.java:62-83 | whatever a chain adds comes from one of its branches |
| Platforms.PurpurAddsParents | metadata/src/main/java/dev/neuralnexus/taterapi/meta/Platforms.java:105-106 | detecting Purpur adds Pufferfish, Paper, Spigot and Bukkit as well |
| Platforms.ForgeChainAddsForge | metadata/src/main/java/dev/neuralnexus/taterapi/meta/Platforms.java:61-83 | whenever the Forge block adds anything, Forge is among it |
| Platforms.IndependentPlatforms | metadata/src/main/java/dev/neuralnexus/taterapi/meta/Platforms.java:118-153 | Folia, Sponge, Velocity and Ignite are detected exactly when their own probe says so |
| Platforms.ChainRanges | metadata/src/main/java/dev/neuralnexus/taterapi/meta/Platforms.java:61-138 | each detection block adds only platforms named in that block |
| Platforms.PrimaryFailure | metadata/src/main/java/dev/neuralnexus/taterapi/meta/Platforms.java:161-197 | `detectPrimary` throws exactly when Forge and Fabric are both present, no proxy is, and neither Kilt nor Connector is loaded |
| Platforms.PrimaryIsDetected | metadata/src/main/java/dev/neuralnexus/taterapi/meta/Platforms.java:161-197 | a known primary was itself detected and is one that `layerPlatforms` has a branch for |
| Platforms.PrimaryUnknown | metadata/src/main/java/dev/neuralnexus/taterapi/meta/Platforms.java:161-197 | the primary is UNKNOWN exactly when none of the eight platforms it looks for was detected |
| Platforms.PrimaryPriority | metadata/src/main/java/dev/neuralnexus/taterapi/meta/Platforms.java:163-176 | BungeeCord beats Velocity, both beat everything else, and with Forge and Fabric Kilt wins over Connector |
| Platforms.AddMeaning | metadata/src/main/java/dev/neuralnexus/taterapi/meta/Platforms.java:206-216 | `LinkedHashSet.add`: keeps order and no-duplicates, adds exactly the element, never drops one |
| Platforms.AddIfMeaning | metadata/src/main/java/dev/neuralnexus/taterapi/meta/Platforms.java:207-209 | the guarded add adds the platform exactly when the guard platform was detected |
| Platforms.LoaderPrefixShape | metadata/src/main/java/dev/neuralnexus/taterapi/meta/Platforms.java:205-255 | for Fabric, Forge and NeoForge the layering starts with the loader, has Vanilla, and otherwise only detected platforms |
| Platforms.LayerPrefixShape | metadata/src/main/java/dev/neuralnexus/taterapi/meta/Platforms.java:204-297 | for every primary the layering prefix starts with the primary, has no duplicates, holds Vanilla exactly when the primary is not a proxy, and otherwise only detected platforms; an unknown primary has an empty prefix |
| Platforms.ServerPrefixShape | metadata/src/main/java/dev/neuralnexus/taterapi/meta/Platforms.java:256-288 | the Sponge, Paper and Bukkit prefixes start with the primary and include Vanilla |
| Platforms.ProxyPrefixShape | metadata/src/main/java/dev/neuralnexus/taterapi/meta/Platforms.java:289-295 | the proxy prefixes start with the proxy and hold no Vanilla |
| Platforms.Registry.constructor | metadata/src/main/java/dev/neuralnexus/taterapi/meta/Platforms.java:29-31 | both sets start empty |
| Platforms.Registry.DetectPlatforms | metadata/src/main/java/dev/neuralnexus/taterapi/meta/Platforms.java:56-154 | without force and with platforms already detected nothing changes; otherwise every platform the detection pass finds is added and nothing is removed |
| Platforms.Registry.DetectForge | metadata/src/main/java/dev/neuralnexus/taterapi/meta/Platforms.java:61-83 | the Forge block adds what the first detected branch of its chain names |
| Platforms.Registry.DetectNeoForge | metadata/src/main/java/dev/neuralnexus/taterapi/meta/Platforms.java:85-90 | the NeoForge block adds what the first detected branch names |
| Platforms.Registry.DetectFabric | metadata/src/main/java/dev/neuralnexus/taterapi/meta/Platforms.java:92-102 | the Fabric block adds what the first detected branch names |
| Platforms.Registry.DetectBukkit | metadata/src/main/java/dev/neuralnexus/taterapi/meta/Platforms.java:104-117 | the Bukkit block adds what the first detected branch names |
| Platforms.Registry.DetectBungeeCord | metadata/src/main/java/dev/neuralnexus/taterapi/meta/Platforms.java:122-131 | the BungeeCord block adds what the first detected branch names |
| Platforms.Registry.DetectHybrids | metadata/src/main/java/dev/neuralnexus/taterapi/meta/Platforms.java:133-138 | the hybrid block adds Arclight, else Magma, when detected |
| Platforms.Registry.LayerPlatforms | metadata/src/main/java/dev/neuralnexus/taterapi/meta/Platforms.java:200-298 | throws exactly when `detectPrimary` does, leaving the layering empty; otherwise the layering begins with the primary's prefix, holds exactly the prefix and the detected platforms, and has no duplicates |
| Platforms.Registry.AddPrefix | metadata/src/main/java/dev/neuralnexus/taterapi/meta/Platforms.java:204-296 | the switch adds exactly the prefix its primary's branch names, in order |
| Platforms.Registry.AddAll | metadata/src/main/java/dev/neuralnexus/taterapi/meta/Platforms.java:220 | `addAll` keeps what was there as a prefix and adds every detected platform, with no duplicates |
| Platforms.Registry.Get | metadata/src/main/java/dev/neuralnexus/taterapi/meta/Platforms.java:38-46 | detects (forced) only when nothing was detected, layers only when the layering is empty, and returns the layering; it fails exactly when it had to layer and `detectPrimary` failed; a layering it builds begins with the primary's prefix and holds exactly that prefix and every detected platform |
| Platforms.ForgeChainMatches | metadata/src/main/java/dev/neuralnexus/taterapi/meta/Platforms.java:61-83 | the Forge block, branch by branch: the first detected hybrid is added together with Forge, in the source's order, and plain Forge when only it is detected |
| Platforms.BukkitChainMatches | metadata/src/main/java/dev/neuralnexus/taterapi/meta/Platforms.java:104-117 | the Bukkit block, branch by branch: Purpur adds Pufferfish, Paper, Spigot and Bukkit; each fork adds its parents; Poseidon adds Bukkit |
| Platforms.ShortChainsMatch | metadata/src/main/java/dev/neuralnexus/taterapi/meta/Platforms.java:85-138 | the NeoForge, Fabric, BungeeCord and hybrid blocks, branch by branch, each adding the first detected platform with its parents |
| Constraints.Elements | metadata/src/main/java/dev/neuralnexus/taterapi/meta/Constraint.java:157-168 | the set an `addAll` fills holds exactly the elements of the list |
| Constraints.EvalDepsMeaning | metadata/src/main/java/dev/neuralnexus/taterapi/meta/Constraint.java:411-434 | `evalDeps` passes exactly when no ids are required or some required id is loaded, and no forbidden id is loaded |
| Constraints.EvalSideMeaning | metadata/src/main/java/dev/neuralnexus/taterapi/meta/Constraint.java:503-522 | `evalSide` passes exactly when no side is listed or the current side is among them |
| Constraints.VersionRangeEnforced | metadata/src/main/java/dev/neuralnexus/taterapi/meta/Constraint.java:541-554 | with both bounds known, a passing version lies in the closed interval from min to max |
| Constraints.ForbiddenRangeEnforced | metadata/src/main/java/dev/neuralnexus/taterapi/meta/Constraint.java:565-578 | with both bounds known, a version in the closed interval from notMin to notMax fails |
| Constraints.HalfRangeIgnored | metadata/src/main/java/dev/neuralnexus/taterapi/meta/Constraint.java:541-543 | a range with one UNKNOWN bound is not enforced: its other bound changes nothing |
| Constraints.UnconstrainedHolds | metadata/src/main/java/dev/neuralnexus/taterapi/meta/Constraint.java:156-170 | a constraint straight from a fresh builder holds in every environment |
| Constraints.PlatformExclusionAsWrittenMisses | metadata/src/main/java/dev/neuralnexus/taterapi/meta/Constraint.java:482-483 | as written, a constraint that only forbids Forge passes the platform check and the whole evaluation while Forge is present, where the intended conjunction rejects it |
| Constraints.PlatformRequirementAsWrittenRejects | metadata/src/main/java/dev/neuralnexus/taterapi/meta/Constraint.java:482-483 | as written, a constraint that requires Forge and forbids Fabric fails on Forge without Fabric, where the intended conjunction accepts it |
| Constraints.ForbiddenPlatformRejects | metadata/src/main/java/dev/neuralnexus/taterapi/meta/Constraint.java:472-495 | corrected: whenever the forbidden platforms are present, the intended platform check and the intended conjunction `HoldsIntended` fail |
| Constraints.PlatformAsWrittenAgrees | metadata/src/main/java/dev/neuralnexus/taterapi/meta/Constraint.java:472-495 | the platform check as written and the corrected one, and so the evaluation as written and the intended conjunction, agree when nothing is forbidden or both lists coincide |
| Constraints.Builder.constructor | metadata/src/main/java/dev/neuralnexus/taterapi/meta/Constraint.java:156-170 | a fresh builder holds empty sets, NONE mappings and UNKNOWN bounds |
| Constraints.Builder.AddDeps | metadata/src/main/java/dev/neuralnexus/taterapi/meta/Constraint.java:178-191 | adds the ids to the required set and changes nothing else |
| Constraints.Builder.AddNotDeps | metadata/src/main/java/dev/neuralnexus/taterapi/meta/Constraint.java:199-212 | adds the ids to the forbidden set and changes nothing else |
| Constraints.Builder.SetMappings | metadata/src/main/java/dev/neuralnexus/taterapi/meta/Constraint.java:220-223 | replaces the mappings and changes nothing else |
| Constraints.Builder.AddPlatform | metadata/src/main/java/dev/neuralnexus/taterapi/meta/Constraint.java:231-244 | adds the platforms to the required set and changes nothing else |
| Constraints.Builder.AddNotPlatform | metadata/src/main/java/dev/neuralnexus/taterapi/meta/Constraint.java:252-265 | adds the platforms to the forbidden set and changes nothing else |
| Constraints.Builder.AddSide | metadata/src/main/java/dev/neuralnexus/taterapi/meta/Constraint.java:273-286 | adds the sides and changes nothing else |
| Constraints.Builder.AddVersion | metadata/src/main/java/dev/neuralnexus/taterapi/meta/Constraint.java:294-307 | adds the versions to the accepted set and changes nothing else |
| Constraints.Builder.SetMin | metadata/src/main/java/dev/neuralnexus/taterapi/meta/Constraint.java:315-318 | replaces min and changes nothing else |
| Constraints.Builder.SetMax | metadata/src/main/java/dev/neuralnexus/taterapi/meta/Constraint.java:326-329 | replaces max and changes nothing else |
| Constraints.Builder.AddNotVersion | metadata/src/main/java/dev/neuralnexus/taterapi/meta/Constraint.java:337-350 | adds the versions to the forbidden set and changes nothing else |
| Constraints.Builder.SetNotMin | metadata/src/main/java/dev/neuralnexus/taterapi/meta/Constraint.java:359-362 | replaces notMin and changes nothing else |
| Constraints.Builder.SetNotMax | metadata/src/main/java/dev/neuralnexus/taterapi/meta/Constraint.java:364-367 | replaces notMax and changes nothing else |
| Constraints.Builder.Build | metadata/src/main/java/dev/neuralnexus/taterapi/meta/Constraint.java:374-388 | the constraint holds exactly the builder's current contents |
| Constraints.Values | metadata/src/main/java/dev/neuralnexus/taterapi/meta/Constraint.java:59 | the ids of the dependencies, one per dependency, in order |
| Constraints.AliasesContain | metadata/src/main/java/dev/neuralnexus/taterapi/meta/Constraint.java:60-64 | an id is among the flattened aliases exactly when some dependency lists it |
| Constraints.DependencyIdsMeaning | metadata/src/main/java/dev/neuralnexus/taterapi/meta/Constraint.java:57-70 | an id is required (or forbidden) exactly when it is some dependency's value or one of its aliases |
| Constraints.From | metadata/src/main/java/dev/neuralnexus/taterapi/meta/Constraint.java:57-94 | `from` builds exactly the translation of the annotation: values and aliases of the dependencies, the platforms, sides, versions and both ranges |
| Constraints.EmptyAnnotationTranslates | metadata/src/main/java/dev/neuralnexus/taterapi/meta/Constraint.java:57-94 | an annotation with no members translates to the unconstrained constraint |
| Constraints.Evaluator.constructor | metadata/src/main/java/dev/neuralnexus/taterapi/meta/Constraint.java:395-403 | the cache starts empty and DEBUG off |
| Constraints.Evaluator.Evaluate | metadata/src/main/java/dev/neuralnexus/taterapi/meta/Constraint.java:600-615 | the answer is the conjunction of the five checks, with the platform check as written; a cached constraint answers from the cache, which it leaves alone, and any other is stored; every cached answer stays correct |
| Constraints.ConstraintSet.constructor | metadata/src/main/java/dev/neuralnexus/taterapi/meta/Constraints.java:22-24 | a collection not yet evaluated |
| Constraints.ConstraintSet.OfDistinct | metadata/src/main/java/dev/neuralnexus/taterapi/meta/Constraints.java:26-28 | `Set.of` throws IllegalArgument exactly on a constraint repeated by value (Java's identity-based equality is under "## Left out"); otherwise an unevaluated collection of the given constraints |
| Constraints.ConstraintSet.FromAll | metadata/src/main/java/dev/neuralnexus/taterapi/meta/Constraints.java:30-32 | the collection holds the translation of each annotation, in order |
| Constraints.ConstraintSet.Result | metadata/src/main/java/dev/neuralnexus/taterapi/meta/Constraints.java:38-44 | the answer is whether every constraint holds; the first call stores it and later calls return it without evaluating anything |
| Constraints.FromAnnotations | metadata/src/main/java/dev/neuralnexus/taterapi/meta/Constraints.java:34-36 | delegates to the array overload with the annotation's value |
| Constraints.AllHoldCases | metadata/src/main/java/dev/neuralnexus/taterapi/meta/Constraints.java:40 | an empty collection holds, and one failing member makes the whole fail |
| Annotations.AsDependencies | muxins/src/main/java/dev/neuralnexus/taterapi/muxins/AnnotationChecker.java:151-161 | one dependency per node, in order, its aliases empty when the node has none |
| Annotations.ToConstraintDeps | muxins/src/main/java/dev/neuralnexus/taterapi/muxins/AnnotationChecker.java:149-174 | an id is required (forbidden) exactly when it is the value or an alias of one of the node's deps (notDeps) |
| Annotations.ToConstraintMembers | muxins/src/main/java/dev/neuralnexus/taterapi/muxins/AnnotationChecker.java:176-214 | mappings, platforms and sides are copied, and an absent version node constrains nothing |
| Annotations.CheckReqDependency | muxins/src/main/java/dev/neuralnexus/taterapi/muxins/AnnotationChecker.java:225-259 | true exactly when every entry is met: "!x" needs x absent, any other id needs it loaded |
| Annotations.NegatedDependency | muxins/src/main/java/dev/neuralnexus/taterapi/muxins/AnnotationChecker.java:230-242 | a "!"-entry fails exactly when the mod named after the "!" is loaded |
| Annotations.PlainDependency | muxins/src/main/java/dev/neuralnexus/taterapi/muxins/AnnotationChecker.java:243-255 | an entry without "!" passes exactly when its mod is loaded |
| Annotations.SingleDependencyAsConstraint | muxins/src/main/java/dev/neuralnexus/taterapi/muxins/AnnotationChecker.java:225-259 | one required id behaves as a constraint requiring only that id |
| Annotations.MappingsAgreeWithConstraint | muxins/src/main/java/dev/neuralnexus/taterapi/muxins/AnnotationChecker.java:269-283 | when the mappings' `is` is identity, `@ReqMappings` and a constraint's mappings member accept the same environments |
| Annotations.CheckReqPlatform | muxins/src/main/java/dev/neuralnexus/taterapi/muxins/AnnotationChecker.java:293-326 | true exactly when every listed platform is present and every "not" platform absent |
| Annotations.PlatformAgreesWithConstraint | muxins/src/main/java/dev/neuralnexus/taterapi/muxins/AnnotationChecker.java:293-326 | for one platform, `@ReqPlatform` agrees with the corrected constraint platform check, required and forbidden alike (the constraint path as written does not, see "## Findings") |
| Annotations.CheckReqMCVersion | muxins/src/main/java/dev/neuralnexus/taterapi/muxins/AnnotationChecker.java:336-383 | true exactly when, unless both bounds are UNKNOWN, the version is at least min and at most max, and a non-empty list holds a version comparing equal |
| Annotations.HalfRangeComparesUnknown | muxins/src/main/java/dev/neuralnexus/taterapi/muxins/AnnotationChecker.java:342-362 | a half-open range is still checked, its UNKNOWN end compared as the string "unknown" |
| Annotations.RangeAgreesWithConstraint | muxins/src/main/java/dev/neuralnexus/taterapi/muxins/AnnotationChecker.java:336-363 | with both bounds known, `@ReqMCVersion` and a constraint's range accept the same versions |
| Annotations.CheckConstraint | muxins/src/main/java/dev/neuralnexus/taterapi/muxins/AnnotationChecker.java:97-113 | true exactly when the node's constraint holds; the debug switch is restored on both outcomes |
| Annotations.Enumerate | muxins/src/main/java/dev/neuralnexus/taterapi/muxins/AnnotationChecker.java:131-133 | the set's members, each once |
| Annotations.CheckConstraints | muxins/src/main/java/dev/neuralnexus/taterapi/muxins/AnnotationChecker.java:123-147 | true exactly when every node's constraint holds; the debug switch is restored on both outcomes |
| Annotations.CheckAnnotation | muxins/src/main/java/dev/neuralnexus/taterapi/muxins/AnnotationChecker.java:59-84 | the check for one annotation passes exactly when that annotation is met; unrecognised ones pass |
| Annotations.CheckAnnotations | muxins/src/main/java/dev/neuralnexus/taterapi/muxins/AnnotationChecker.java:57-87 | true exactly when every annotation passes, false at the first that does not |
| Annotations.FailingAnnotationRejects | muxins/src/main/java/dev/neuralnexus/taterapi/muxins/AnnotationChecker.java:57-87 | one failing annotation anywhere rejects the mixin |
| Annotations.UnrecognisedIgnored | muxins/src/main/java/dev/neuralnexus/taterapi/muxins/AnnotationChecker.java:84-86 | an unrecognised annotation never changes the outcome |
| Mixins.FilterPartition | muxins/src/main/java/dev/neuralnexus/taterapi/muxins/mixin/MixinHacks.java:134-142 | taking the check classes out and putting them back at the end loses and adds nothing |
| Mixins.FilterSatisfies | muxins/src/main/java/dev/neuralnexus/taterapi/muxins/mixin/MixinHacks.java:135-141 | everything moved to the late list is a check class |
| Mixins.FilterKeepsHead | muxins/src/main/java/dev/neuralnexus/taterapi/muxins/mixin/MixinHacks.java:129-142 | a first extension that is not a check class stays first |
| Mixins.AddExtension | muxins/src/main/java/dev/neuralnexus/taterapi/muxins/mixin/MixinHacks.java:129-143 | the new extension goes first, then every check class is moved to the end in the order the iteration meets them |
| Mixins.AddExtensionIsPermutation | muxins/src/main/java/dev/neuralnexus/taterapi/muxins/mixin/MixinHacks.java:129-143 | the new list is the old one plus the new extension, nothing lost or repeated |
| Mixins.ChecksAtTail | muxins/src/main/java/dev/neuralnexus/taterapi/muxins/mixin/MixinHacks.java:129-143 | afterwards the check classes form exactly the tail of the list |
| Mixins.NewExtensionFirst | muxins/src/main/java/dev/neuralnexus/taterapi/muxins/mixin/MixinHacks.java:129-130 | an extension that is not a check class ends up first |
| Mixins.Extensions.constructor | muxins/src/main/java/dev/neuralnexus/taterapi/muxins/mixin/MixinHacks.java:40-42 | the two lists the transformer's extensions object holds |
| Mixins.MixinHacks.constructor | muxins/src/main/java/dev/neuralnexus/taterapi/muxins/mixin/MixinHacks.java:44 | not yet initialised |
| Mixins.MixinHacks.TryInit | muxins/src/main/java/dev/neuralnexus/taterapi/muxins/mixin/MixinHacks.java:46-85 | afterwards initialised; a second call does no work |
| Mixins.MixinHacks.RegisterMixinExtension | muxins/src/main/java/dev/neuralnexus/taterapi/muxins/mixin/MixinHacks.java:87-110 | both the extensions list and the active list become the reordering of the new extension followed by their old contents |
| Mixins.FirstFailureFrom | muxins/src/main/java/dev/neuralnexus/taterapi/muxins/mixin/MixinTransformer.java:50-67 | the index found is the first annotation from the start point that fails, or -1 when all pass |
| Mixins.SurvivingMeaning | muxins/src/main/java/dev/neuralnexus/taterapi/muxins/mixin/MixinTransformer.java:50-67 | an annotation survives the walk exactly when it is no constraint annotation and not the first failing one |
| Mixins.NoConstraintSurvives | muxins/src/main/java/dev/neuralnexus/taterapi/muxins/mixin/MixinTransformer.java:28-30 | no constraint annotation survives |
| Mixins.RemoveConstraintAnnotations | muxins/src/main/java/dev/neuralnexus/taterapi/muxins/mixin/MixinTransformer.java:28-30 | `removeIf(isConstraintAnnotationNode)` leaves exactly the non-constraint annotations, in order |
| Mixins.ShouldRemoveTarget | muxins/src/main/java/dev/neuralnexus/taterapi/muxins/mixin/MixinTransformer.java:42-70 | an absent list removes nothing; otherwise the target is removed exactly when some annotation fails, and the list left holds the survivors |
| Mixins.RemovedIffSomeAnnotationFails | muxins/src/main/java/dev/neuralnexus/taterapi/muxins/mixin/MixinTransformer.java:42-70 | a target is removed exactly when one of its annotations fails its check |
| Mixins.KeptTargetsMeaning | muxins/src/main/java/dev/neuralnexus/taterapi/muxins/mixin/MixinTransformer.java:32-39 | a kept target is a stripped input target none of whose annotations fails, and conversely |
| Mixins.RemoveTargets | muxins/src/main/java/dev/neuralnexus/taterapi/muxins/mixin/MixinTransformer.java:32-39 | `removeIf` over fields or methods keeps exactly the targets without a failing annotation, stripped, in order |
| Mixins.TransformedHasNoConstraints | muxins/src/main/java/dev/neuralnexus/taterapi/muxins/mixin/MixinTransformer.java:23-40 | after `transform` no constraint annotation is left on the class or on a kept field or method |
| Mixins.ClassNode.constructor | muxins/src/main/java/dev/neuralnexus/taterapi/muxins/mixin/MixinTransformer.java:23 | the node holds the given annotations, fields and methods |
| Mixins.ClassNode.Transform | muxins/src/main/java/dev/neuralnexus/taterapi/muxins/mixin/MixinTransformer.java:23-40 | the node's new annotations, fields and methods are those `transform` specifies for its old ones |
| Mixins.NewMuxinExtension | muxins/src/main/java/dev/neuralnexus/taterapi/muxins/mixin/MuxinExtension.java:22-28 | the stored package ends in "." and the verbose flag is kept |
| Mixins.PackageNormalisation | muxins/src/main/java/dev/neuralnexus/taterapi/muxins/mixin/MuxinExtension.java:23-25 | the "." is appended only when missing: the given package is a prefix, the length grows by at most one, and normalising twice changes nothing |
| Mixins.CheckActive | muxins/src/main/java/dev/neuralnexus/taterapi/muxins/mixin/MuxinExtension.java:30-33 | the extension never reports itself active |
| Mixins.PreApply | muxins/src/main/java/dev/neuralnexus/taterapi/muxins/mixin/MuxinExtension.java:35-42 | the class node of every mixin whose package is the extension's is transformed, and every other is left alone |
| Muxins.Bootstrapper.constructor | muxins/src/main/java/dev/neuralnexus/taterapi/muxins/Muxins.java:28 | no package initialised yet |
| Muxins.Bootstrapper.Bootstrap | muxins/src/main/java/dev/neuralnexus/taterapi/muxins/Muxins.java:30-35 | the package is recorded; the first call for it registers a Muxin extension for it, later calls change nothing |
| Muxins.Bootstrapper.BootstrapQuiet | muxins/src/main/java/dev/neuralnexus/taterapi/muxins/Muxins.java:37-39 | as `bootstrap(mixinPackage, false)` |
| Muxins.ShouldApplyMixin | muxins/src/main/java/dev/neuralnexus/taterapi/muxins/Muxins.java:49-82 | when the class loads and has annotations their check alone decides; otherwise the mixin applies unless its name ends with a disabled entry |
| Muxins.ShouldApplyMixinByName | muxins/src/main/java/dev/neuralnexus/taterapi/muxins/Muxins.java:90-92 | as the three-argument form with no disabled list |
| Muxins.ShouldApplyMixinVerbose | muxins/src/main/java/dev/neuralnexus/taterapi/muxins/Muxins.java:101-103 | as the three-argument form with no disabled list |
| Muxins.ShouldApplyMixinUnlessDisabled | muxins/src/main/java/dev/neuralnexus/taterapi/muxins/Muxins.java:112-115 | as the three-argument form, not verbose |
| Muxins.AnnotationsOverrideDisabled | muxins/src/main/java/dev/neuralnexus/taterapi/muxins/Muxins.java:64-72 | a disabled mixin whose annotations all pass is applied all the same |
| Muxins.DisabledDecidesWithoutAnnotations | muxins/src/main/java/dev/neuralnexus/taterapi/muxins/Muxins.java:50-63 | when the class cannot be loaded or has no annotations, the disabled list decides |
| Muxins.SuffixDisables | muxins/src/main/java/dev/neuralnexus/taterapi/muxins/Muxins.java:52-53 | an entry disables every mixin whose name ends with it |
| Codecs.OfDelegates | core/src/main/java/dev/neuralnexus/taterapi/network/codec/StreamCodec.java:10-22 | `of` decodes with the decoder and encodes with the encoder, arguments as given |
| Codecs.OfMemberSwapsArguments | core/src/main/java/dev/neuralnexus/taterapi/network/codec/StreamCodec.java:24-37 | `ofMember` decodes with the decoder and encodes by calling the member encoder with the value first |
| Codecs.Decode | core/src/main/java/dev/neuralnexus/taterapi/network/codec/StreamCodec.java:9 | running a decoder on a buffer leaves its bytes alone, and on success returns what the decoder read and leaves readable what it did not consume |
| Codecs.Encode | core/src/main/java/dev/neuralnexus/taterapi/network/codec/StreamCodec.java:9 | running an encoder on a buffer appends exactly the encoder's bytes and leaves the reader index alone |
| Payloads.IdentifiedCodecLabels | core/src/main/java/dev/neuralnexus/taterapi/network/protocol/common/custom/CustomPacketPayload.java:35-52 | `codec(identifier)` decodes exactly when the payload bytes can be read, and labels them with the identifier |
| Payloads.IdentifiedCodecWritesOnlyData | core/src/main/java/dev/neuralnexus/taterapi/network/protocol/common/custom/CustomPacketPayload.java:54-58 | `codec(identifier)` writes the data bytes alone, not the identifier |
| Payloads.IdentifiedCodecRoundTrip | core/src/main/java/dev/neuralnexus/taterapi/network/protocol/common/custom/CustomPacketPayload.java:35-60 | decoding what `codec(identifier)` wrote gives the data back under the identifier |
| Payloads.IdentifiedCodecWellBehaved | core/src/main/java/dev/neuralnexus/taterapi/network/protocol/common/custom/CustomPacketPayload.java:35-60 | `codec(identifier)` only consumes when decoding and only appends when encoding |
| Payloads.FindCodecPrefersRegistered | core/src/main/java/dev/neuralnexus/taterapi/network/protocol/common/custom/CustomPacketPayload.java:65-69 | a registered codec for the identifier is used; otherwise the fallback provider's codec for it |
| Payloads.FallbackCodecDelegates | core/src/main/java/dev/neuralnexus/taterapi/network/protocol/common/custom/CustomPacketPayload.java:86-89 | the fallback codec reads the resource location and hands the rest of the buffer to the codec found for it |
| Payloads.DefaultCodecRoundTrip | core/src/main/java/dev/neuralnexus/taterapi/network/protocol/common/custom/CustomPacketPayload.java:21-22 | a payload whose identifier nobody registered survives a trip through `DEFAULT_CODEC` with its data |
| Payloads.FallbackDecodeFrom | core/src/main/java/dev/neuralnexus/taterapi/network/protocol/common/custom/CustomPacketPayload.java:86-89 | on a buffer: the bytes are unchanged and the outcome is that of the fallback decode on the readable bytes |
| Payloads.FallbackEncodeInto | core/src/main/java/dev/neuralnexus/taterapi/network/protocol/common/custom/CustomPacketPayload.java:72-84 | on a buffer: appends the resource location and then what the found codec writes, reader index unchanged |
| LoginPayloads.QueryRoundTrip | core/src/main/java/dev/neuralnexus/taterapi/network/protocol/login/custom/CustomQueryPayloadImpl.java:19-33 | decoding what `STREAM_CODEC` wrote for a query payload gives back the same identifier and data, consuming everything |
| LoginPayloads.QueryCodecWellBehaved | core/src/main/java/dev/neuralnexus/taterapi/network/protocol/login/custom/CustomQueryPayloadImpl.java:19-33 | the query codec only consumes when decoding and only appends when encoding |
| LoginPayloads.ReadQuery | core/src/main/java/dev/neuralnexus/taterapi/network/protocol/login/custom/CustomQueryPayloadImpl.java:24-28 | on a buffer: a resource location, then the payload bytes; the outcome is the query decode of the readable bytes |
| LoginPayloads.WriteQuery | core/src/main/java/dev/neuralnexus/taterapi/network/protocol/login/custom/CustomQueryPayloadImpl.java:30-33 | on a buffer: appends the resource location and then the data, reader index unchanged |
| LoginPayloads.AnswerRoundTrip | core/src/main/java/dev/neuralnexus/taterapi/network/protocol/login/custom/CustomQueryAnswerPayloadImpl.java:17-29 | decoding what `STREAM_CODEC` wrote for an answer payload gives back the same data, consuming everything |
| LoginPayloads.AnswerCodecWellBehaved | core/src/main/java/dev/neuralnexus/taterapi/network/protocol/login/custom/CustomQueryAnswerPayloadImpl.java:17-29 | the answer codec only consumes when decoding and only appends when encoding |
| LoginPayloads.ReadAnswer | core/src/main/java/dev/neuralnexus/taterapi/network/protocol/login/custom/CustomQueryAnswerPayloadImpl.java:23-25 | on a buffer: the outcome is the answer decode of the readable bytes |
| LoginPayloads.WriteAnswer | core/src/main/java/dev/neuralnexus/taterapi/network/protocol/login/custom/CustomQueryAnswerPayloadImpl.java:27-29 | on a buffer: appends the data alone, reader index unchanged |
| LoginPackets.ClientboundRoundTrip | core/src/main/java/dev/neuralnexus/taterapi/network/protocol/login/ClientboundCustomQueryPacket.java:23-36 | decoding what the packet's `write` produced gives back the same transaction id and payload, consuming everything |
| LoginPackets.ReadClientbound | core/src/main/java/dev/neuralnexus/taterapi/network/protocol/login/ClientboundCustomQueryPacket.java:29-31 | on a buffer: a VarInt transaction id, then the payload by `DEFAULT_CODEC` |
| LoginPackets.WriteClientbound | core/src/main/java/dev/neuralnexus/taterapi/network/protocol/login/ClientboundCustomQueryPacket.java:33-36 | on a buffer: appends the VarInt transaction id, then the payload by its own codec |
| LoginPackets.NewServerboundAnswer | core/src/main/java/dev/neuralnexus/taterapi/network/protocol/login/ServerboundCustomQueryAnswerPacket.java:33-35 | the one-argument constructor keeps the transaction id and has no payload |
| LoginPackets.AsWrittenRejectsAnswerWithoutPayload | core/src/main/java/dev/neuralnexus/taterapi/network/protocol/login/ServerboundCustomQueryAnswerPacket.java:41-48 | as written, writing a packet from the one-argument constructor throws a NullPointerException after the transaction id is out |
| LoginPackets.AsWrittenAgreesWithPayload | core/src/main/java/dev/neuralnexus/taterapi/network/protocol/login/ServerboundCustomQueryAnswerPacket.java:41-48 | with a payload present, the code as written and the corrected `write` produce the same bytes and both succeed |
| LoginPackets.ServerboundRoundTrip | core/src/main/java/dev/neuralnexus/taterapi/network/protocol/login/ServerboundCustomQueryAnswerPacket.java:26-48 | with the corrected `write`, every answer packet, with or without payload, decodes back to itself, consuming everything |
| LoginPackets.ReadServerbound | core/src/main/java/dev/neuralnexus/taterapi/network/protocol/login/ServerboundCustomQueryAnswerPacket.java:37-39 | on a buffer: a VarInt transaction id, then the nullable payload |
| LoginPackets.WriteServerboundAsWritten | core/src/main/java/dev/neuralnexus/taterapi/network/protocol/login/ServerboundCustomQueryAnswerPacket.java:41-48 | on a buffer: the bytes and outcome of `write` as written, reader index unchanged |
| LoginPackets.WriteServerbound | core/src/main/java/dev/neuralnexus/taterapi/network/protocol/login/ServerboundCustomQueryAnswerPacket.java:41-48 | on a buffer: the corrected `write`, appending the transaction id and then the nullable payload |
| Results.SuccessLaws | base/src/main/java/dev/neuralnexus/taterapi/serialization/Result.java:15-57 | a success is a success, not an error, yields its value from `result()` and `unwrap()`, and has no `error()` |
| Results.ErrorLaws | base/src/main/java/dev/neuralnexus/taterapi/serialization/Result.java:19-79 | an error is an error, has no `result()`, unwraps to null, yields itself from `error()` and keeps its message and cause; the one-argument `error` has no cause |
| Results.ExactlyOneSide | base/src/main/java/dev/neuralnexus/taterapi/serialization/Result.java:27-79 | every result has exactly one of `result()` and `error()`, and `isError` is the negation of `isSuccess` |
| NetworkRegistries.NetworkRegistry.constructor | core/src/main/java/dev/neuralnexus/taterapi/network/NetworkRegistry.java:20-23 | both codec tables (query payloads by identifier, answer payloads by transaction id) start empty |
| NetworkRegistries.NetworkRegistry.RegisterQueryPayload | core/src/main/java/dev/neuralnexus/taterapi/network/NetworkRegistry.java:25-29 | afterwards the identifier's codec is the one registered, every other identifier keeps its codec and the answer table is untouched |
| NetworkRegistries.NetworkRegistry.UnregisterQueryPayload | core/src/main/java/dev/neuralnexus/taterapi/network/NetworkRegistry.java:31-33 | afterwards the identifier has no codec, every other identifier keeps its codec and the answer table is untouched |
| NetworkRegistries.NetworkRegistry.RegisterQueryAnswerPayload | core/src/main/java/dev/neuralnexus/taterapi/network/NetworkRegistry.java:44-49 | afterwards the transaction id's codec is the one registered, every other id keeps its codec and the query table is untouched |
| NetworkRegistries.NetworkRegistry.UnregisterQueryAnswerPayload | core/src/main/java/dev/neuralnexus/taterapi/network/NetworkRegistry.java:51-53 | afterwards the transaction id has no codec, every other id keeps its codec and the query table is untouched |
| ConnectionProtocols.ShortMapsLeaveEndsOpen | core/src/main/java/dev/neuralnexus/taterapi/network/ConnectionProtocol.java:180-196 | the one- and two-argument `map` leave the missing ends of the version range UNKNOWN |
| ConnectionProtocols.FirstResolvedIsFirst | core/src/main/java/dev/neuralnexus/taterapi/network/ConnectionProtocol.java:146-151 | an id is found exactly when some mapping resolves, and it is the id of the first mapping (in argument order) that resolves |
| ConnectionProtocols.Lookup | core/src/main/java/dev/neuralnexus/taterapi/network/ConnectionProtocol.java:158-170 | a codec is returned exactly when the id is registered, and it is the registered one; otherwise an IllegalArgumentException whose message starts "No protocol info found for id: " |
| ConnectionProtocols.PacketRegistry.constructor | core/src/main/java/dev/neuralnexus/taterapi/network/ConnectionProtocol.java:129-136 | a registry keeps its direction and protocol and starts with no packets |
| ConnectionProtocols.PacketRegistry.Register | core/src/main/java/dev/neuralnexus/taterapi/network/ConnectionProtocol.java:138-156 | no mappings throws "At least one mapping must be provided" and changes nothing; otherwise the packet info replaces whatever sat under the first resolved id (nothing changes if none resolves) and the codec lookup for that id then yields its codec |
| ConnectionProtocols.HandshakeAndStatusHaveNoCodecs | core/src/main/java/dev/neuralnexus/taterapi/network/ConnectionProtocol.java:28-29 | handshake and status register no packets, so every codec lookup there throws |
| ConnectionProtocols.LoginTables | core/src/main/java/dev/neuralnexus/taterapi/network/ConnectionProtocol.java:30-43 | in the login phase the custom query answer sits at serverbound id 0x02 and the custom query at clientbound id 0x04 when the open range resolves, and nothing else is registered |
| ConnectionProtocols.ConnectionProtocol.constructor | core/src/main/java/dev/neuralnexus/taterapi/network/ConnectionProtocol.java:27-115 | each phase gets a fresh clientbound and serverbound registry holding exactly the table its own registrations (the version-mapped ids of the configuration and play custom payload packets included) produce |
| SerializationRegistries.Reverse | base/src/main/java/dev/neuralnexus/taterapi/serialization/codecs/ReversibleCodec.java:27-39 | the reverse view has the input and output types swapped |
| SerializationRegistries.ReverseSwapsDirections | base/src/main/java/dev/neuralnexus/taterapi/serialization/codecs/ReversibleCodec.java:27-39 | the reverse encodes with the original's decoder and decodes with its encoder |
| SerializationRegistries.ReverseIsInvolution | base/src/main/java/dev/neuralnexus/taterapi/serialization/codecs/ReversibleCodec.java:27-39 | reversing twice gives back the original codec |
| SerializationRegistries.AdmitMeaning | base/src/main/java/dev/neuralnexus/taterapi/registries/AdapterRegistry.java:19-36 | registering adds, in order, the codecs before the first one whose type pair (directly or swapped) is already held; the call fails exactly when such a clash exists, and the held codecs never clash |
| SerializationRegistries.AdapterRegistry.constructor | base/src/main/java/dev/neuralnexus/taterapi/registries/AdapterRegistry.java:17 | a new registry holds no codecs |
| SerializationRegistries.AdapterRegistry.Register | base/src/main/java/dev/neuralnexus/taterapi/registries/AdapterRegistry.java:19-36 | the held codecs and the outcome are those the admission rule gives, and no two held codecs ever share a type pair directly or swapped |
| SerializationRegistries.AdapterRegistry.GetTo | base/src/main/java/dev/neuralnexus/taterapi/registries/AdapterRegistry.java:38-45 | empty exactly when no codec outputs the class; otherwise the first codec in iteration order that does |
| SerializationRegistries.AdapterRegistry.GetFrom | base/src/main/java/dev/neuralnexus/taterapi/registries/AdapterRegistry.java:55-62 | empty exactly when no codec takes the class as input; otherwise the first codec in iteration order that does |
| SerializationRegistries.AdapterRegistry.Get | base/src/main/java/dev/neuralnexus/taterapi/registries/AdapterRegistry.java:72-85 | found exactly when some codec has the pair directly or swapped; an exact match is returned as held, otherwise the reverse of a held codec, and either way the result has the asked-for types |
| SerializationRegistries.AdapterRegistry.GetToOrThrow | base/src/main/java/dev/neuralnexus/taterapi/registries/AdapterRegistry.java:47-53 | a held codec with that output type when one exists, else IllegalArgumentException "No codec found for object class: " plus the class |
| SerializationRegistries.AdapterRegistry.GetFromOrThrow | base/src/main/java/dev/neuralnexus/taterapi/registries/AdapterRegistry.java:64-70 | a held codec with that input type when one exists, else the same IllegalArgumentException |
| SerializationRegistries.AdapterRegistry.GetOrThrow | base/src/main/java/dev/neuralnexus/taterapi/registries/AdapterRegistry.java:87-97 | a codec with the asked-for types when the pair is held directly or swapped, else IllegalArgumentException "No codec found for classes: " plus both classes |
| Adapters.Reverse | core/src/main/java/dev/neuralnexus/taterapi/adapter/AdapterCodec.java:25-37 | the reverse view has toClass and fromClass swapped |
| Adapters.ReverseSwapsDirections | core/src/main/java/dev/neuralnexus/taterapi/adapter/AdapterCodec.java:25-37 | the reverse converts with the original's `from` where it uses `to`, and back |
| Adapters.ReverseIsInvolution | core/src/main/java/dev/neuralnexus/taterapi/adapter/AdapterCodec.java:25-37 | reversing twice gives back the original codec |
| Adapters.AdmitMeaning | core/src/main/java/dev/neuralnexus/taterapi/adapter/AdapterRegistry.java:17-32 | registering adds, in order, the codecs before the first exact duplicate pair; the call fails exactly when there is one, and no two held codecs share a pair |
| Adapters.SwappedPairCoexists | core/src/main/java/dev/neuralnexus/taterapi/adapter/AdapterRegistry.java:20-21 | only an exact duplicate is refused, so a codec and its reverse can both be registered |
| Adapters.AdapterRegistry.constructor | core/src/main/java/dev/neuralnexus/taterapi/adapter/AdapterRegistry.java:15 | a new registry holds no codecs |
| Adapters.AdapterRegistry.Register | core/src/main/java/dev/neuralnexus/taterapi/adapter/AdapterRegistry.java:17-32 | the held codecs and the outcome are those the admission rule gives, and no two held codecs share a pair |
| Adapters.AdapterRegistry.GetTo | core/src/main/java/dev/neuralnexus/taterapi/adapter/AdapterRegistry.java:34-41 | empty exactly when no codec has that fromClass; otherwise the first one in iteration order that does |
| Adapters.AdapterRegistry.GetFrom | core/src/main/java/dev/neuralnexus/taterapi/adapter/AdapterRegistry.java:51-58 | empty exactly when no codec has that toClass; otherwise the first one in iteration order that does |
| Adapters.AdapterRegistry.Get | core/src/main/java/dev/neuralnexus/taterapi/adapter/AdapterRegistry.java:68-81 | found exactly when some codec has the pair directly or swapped; an exact match is returned as held, otherwise the reverse of a held codec, with the asked-for classes |
| Adapters.AdapterRegistry.GetToOrThrow | core/src/main/java/dev/neuralnexus/taterapi/adapter/AdapterRegistry.java:43-49 | a held codec with that fromClass when one exists, else IllegalArgumentException "No codec found for object class: " plus the class |
| Adapters.AdapterRegistry.GetFromOrThrow | core/src/main/java/dev/neuralnexus/taterapi/adapter/AdapterRegistry.java:60-66 | a held codec with that toClass when one exists, else the same IllegalArgumentException |
| Adapters.AdapterRegistry.GetOrThrow | core/src/main/java/dev/neuralnexus/taterapi/adapter/AdapterRegistry.java:83-93 | a codec with the asked-for classes when the pair is held directly or swapped, else IllegalArgumentException "No codec found for classes: " plus both classes |
| Wrappers.WrapperRegistry.constructor | base/src/main/java/dev/neuralnexus/taterapi/adapter/WrapperRegistry.java:13 | a new registry has no wrappers |
| Wrappers.WrapperRegistry.Register | base/src/main/java/dev/neuralnexus/taterapi/adapter/WrapperRegistry.java:15-17 | the class now maps to the new wrapper, replacing any earlier one; other classes keep theirs |
| Wrappers.WrapperRegistry.Wrap | base/src/main/java/dev/neuralnexus/taterapi/adapter/WrapperRegistry.java:19-21 | the wrapper registered for the object's exact class applied to the object; no wrapper is a NullPointerException |
| Wrappers.EncoderRegistry.constructor | base/src/main/java/dev/neuralnexus/taterapi/registries/WrapperRegistry.java:14 | a new registry has no encoders |
| Wrappers.EncoderRegistry.Register | base/src/main/java/dev/neuralnexus/taterapi/registries/WrapperRegistry.java:17-19 | the class now maps to the new encoder, replacing any earlier one |
| Wrappers.EncoderRegistry.Wrap | base/src/main/java/dev/neuralnexus/taterapi/registries/WrapperRegistry.java:21-24 | the unwrapped result of the encoder for the object's exact class, which is null exactly when the encoder fails (a success never holds null here); no encoder is a NullPointerException |
| Entrypoints.Admits | core/src/main/java/dev/neuralnexus/taterapi/loader/EntrypointLoader.java:129-138 | an entrypoint class passes exactly when every constraint of its `@AConstraints` holds (if it has one) and its `@AConstraint` holds (if it has one) |
| Entrypoints.ServedAppend | core/src/main/java/dev/neuralnexus/taterapi/loader/EntrypointLoader.java:121-148 | filtering discovered entrypoints distributes over concatenation, so each is judged on its own and discovery order is kept |
| Entrypoints.ServedMembers | core/src/main/java/dev/neuralnexus/taterapi/loader/EntrypointLoader.java:121-148 | an instance is loaded from the service loader exactly when it was discovered and its class passes the constraint gate |
| Entrypoints.KeptAppend | core/src/main/java/dev/neuralnexus/taterapi/loader/EntrypointLoader.java:188-217 | loading provider classes distributes over concatenation, keeping provider order |
| Entrypoints.KeptMembers | core/src/main/java/dev/neuralnexus/taterapi/loader/EntrypointLoader.java:188-217 | an entrypoint comes from a provider exactly when that provider passes the gate and its no-argument constructor succeeds |
| Entrypoints.CallEach | core/src/main/java/dev/neuralnexus/taterapi/loader/EntrypointLoader.java:245-264 | a hook makes exactly one call per loaded entrypoint, in stored order |
| Entrypoints.ServiceClassesAppend | core/src/main/java/dev/neuralnexus/taterapi/loader/EntrypointLoader.java:152-179 | the classes of a service file are the classes of its first part followed by those of the rest |
| Entrypoints.ServiceClassesOfPrefix | core/src/main/java/dev/neuralnexus/taterapi/loader/EntrypointLoader.java:175-177 | a read cut short by an I/O failure yields a prefix of what the whole file would give |
| Entrypoints.SkippedLine | core/src/main/java/dev/neuralnexus/taterapi/loader/EntrypointLoader.java:159-162 | a blank or `#` comment line, after trimming, contributes no class |
| Entrypoints.ReadServiceFile | core/src/main/java/dev/neuralnexus/taterapi/loader/EntrypointLoader.java:152-179 | the result is the trimmed, resolvable class names of the file's non-blank, non-comment lines, in file order |
| EntrypointLoaders.ServiceLoaderBroken | core/src/main/java/dev/neuralnexus/taterapi/loader/EntrypointLoader.java:230-236 | the service loader counts as broken exactly when the running game is Forge between 1.14.2 and 1.16.2 |
| EntrypointLoaders.EntrypointLoader.constructor | core/src/main/java/dev/neuralnexus/taterapi/loader/EntrypointLoader.java:89-109 | a service loader exists exactly when `useServiceLoader` is set; providers and flags are kept and nothing is loaded yet |
| EntrypointLoaders.EntrypointLoader.LoadServiceLoader | core/src/main/java/dev/neuralnexus/taterapi/loader/EntrypointLoader.java:116-150 | without a service loader an IllegalStateException "ServiceLoader is not initialized."; otherwise the discovered instances that pass the gate, in order, with configuration errors skipped |
| EntrypointLoaders.EntrypointLoader.LoadProviderClasses | core/src/main/java/dev/neuralnexus/taterapi/loader/EntrypointLoader.java:186-219 | the providers that pass the gate and construct, instantiated in order |
| EntrypointLoaders.EntrypointLoader.Load | core/src/main/java/dev/neuralnexus/taterapi/loader/EntrypointLoader.java:227-243 | appends the provider entrypoints when the service loader is broken or other providers are wanted, then the service loader's when it works and is wanted |
| EntrypointLoaders.EntrypointLoader.CallHook | core/src/main/java/dev/neuralnexus/taterapi/loader/EntrypointLoader.java:245-264 | `onInit`, `onEnable` and `onDisable` call the hook once on every loaded entrypoint, in order |
| EntrypointLoaders.BrokenServiceLoaderUsesProviders | core/src/main/java/dev/neuralnexus/taterapi/loader/EntrypointLoader.java:237-242 | on Forge between 1.14.2 and 1.16.2 only the provider classes are loaded, whatever the flags say |
| EntrypointLoaders.WorkingServiceLoader | core/src/main/java/dev/neuralnexus/taterapi/loader/EntrypointLoader.java:237-242 | elsewhere nothing is loaded when both flags are off, and providers come before service entrypoints when both are on |
| EntrypointLoaders.Builder.constructor | core/src/main/java/dev/neuralnexus/taterapi/loader/EntrypointLoader.java:271-279 | no entry point class or class loader, no providers, the service loader on and other providers off |
| EntrypointLoaders.Builder.EntrypointClassIs | core/src/main/java/dev/neuralnexus/taterapi/loader/EntrypointLoader.java:281-284 | sets the entry point class and nothing else |
| EntrypointLoaders.Builder.ClassLoaderIs | core/src/main/java/dev/neuralnexus/taterapi/loader/EntrypointLoader.java:286-289 | sets the class loader and nothing else |
| EntrypointLoaders.Builder.ServicePaths | core/src/main/java/dev/neuralnexus/taterapi/loader/EntrypointLoader.java:296-308 | appends the classes of each service file, file after file, and changes nothing else |
| EntrypointLoaders.Builder.ServiceNames | core/src/main/java/dev/neuralnexus/taterapi/loader/EntrypointLoader.java:310-332 | appends each name's class, in order, skipping names that do not resolve |
| EntrypointLoaders.Builder.ServiceClasses | core/src/main/java/dev/neuralnexus/taterapi/loader/EntrypointLoader.java:334-344 | appends the given classes, in order |
| EntrypointLoaders.Builder.UseServiceLoader | core/src/main/java/dev/neuralnexus/taterapi/loader/EntrypointLoader.java:346-349 | sets the service-loader flag and nothing else |
| EntrypointLoaders.Builder.UseOtherProviders | core/src/main/java/dev/neuralnexus/taterapi/loader/EntrypointLoader.java:351-354 | sets the other-providers flag and nothing else |
| EntrypointLoaders.Builder.Build | core/src/main/java/dev/neuralnexus/taterapi/loader/EntrypointLoader.java:356-373 | a fresh, empty loader with the builder's current providers (copied; see "## Left out") and flags whose service loader iterates what discovery gives for the entry point class and class loader; with the service loader on and no entry point class, a NullPointerException without a message |
| EntrypointLoaders.ResolvedMembers | core/src/main/java/dev/neuralnexus/taterapi/loader/EntrypointLoader.java:310-328 | a class is added by name exactly when some given name resolves to it |
| PluginLoaders.FirstError | core/src/main/java/dev/neuralnexus/taterapi/plugin/EntrypointLoader.java:43 | the position of the first configuration error, with every element before it an instance |
| PluginLoaders.LoadAdmitted | core/src/main/java/dev/neuralnexus/taterapi/plugin/EntrypointLoader.java:42-54 | keeps the admitted instances up to the first configuration error, which ends the walk and propagates |
| PluginLoaders.EntrypointLoader.constructor | core/src/main/java/dev/neuralnexus/taterapi/plugin/EntrypointLoader.java:32-34 | the loader iterates what discovery gives and holds no entrypoints yet |
| PluginLoaders.EntrypointLoader.Load | core/src/main/java/dev/neuralnexus/taterapi/plugin/EntrypointLoader.java:42-54 | appends the admitted entrypoints discovered before the first configuration error, and fails exactly when such an error occurs |
| PluginLoaders.EntrypointLoader.CallHook | core/src/main/java/dev/neuralnexus/taterapi/plugin/EntrypointLoader.java:56-75 | each hook is called once on every loaded entrypoint, in order |
| PluginLoaders.PluginLoader.constructor | core/src/main/java/dev/neuralnexus/taterapi/plugin/PluginLoader.java:20-22 | the loader iterates what discovery gives and holds no plugins yet |
| PluginLoaders.PluginLoader.Load | core/src/main/java/dev/neuralnexus/taterapi/plugin/PluginLoader.java:24-36 | appends the admitted plugins discovered before the first configuration error, and fails exactly when such an error occurs |
| PluginLoaders.PluginLoader.Init | core/src/main/java/dev/neuralnexus/taterapi/plugin/PluginLoader.java:38-42 | `onInit` is called once on every plugin, in order |
| PluginLoaders.CleanDiscoveryKeepsAdmitted | core/src/main/java/dev/neuralnexus/taterapi/plugin/PluginLoader.java:24-36 | without configuration errors a load keeps exactly the discovered plugins that pass the gate |
| ModResources.CloseWrapper | metadata/src/main/java/dev/neuralnexus/taterapi/meta/impl/platform/meta/ModResourceImpl.java:81-86 | closing the wrapper directly always throws UnsupportedOperationException with the "must not be closed directly" message |
| ModResources.ModResource.constructor | metadata/src/main/java/dev/neuralnexus/taterapi/meta/impl/platform/meta/ModResourceImpl.java:27-33 | no cached file system and a count of zero |
| ModResources.ModResource.FileSystem | metadata/src/main/java/dev/neuralnexus/taterapi/meta/impl/platform/meta/ModResourceImpl.java:40-56 | an open cached file system is returned again with the count one higher; otherwise a freshly opened jar is cached behind the wrapper, or the one that already exists is cached unwrapped, and the count restarts at one; an I/O failure propagates and changes nothing |
| ModResources.ModResource.Close | metadata/src/main/java/dev/neuralnexus/taterapi/meta/impl/platform/meta/ModResourceImpl.java:58-67 | the count drops by one, and the file system is closed exactly when the count reaches zero or below and it is a wrapped one; a reused file system stays open |
| ModResources.SharedUntilLastClose | metadata/src/main/java/dev/neuralnexus/taterapi/meta/impl/platform/meta/ModResourceImpl.java:40-67 | two users of a freshly opened jar share one handle; the first close leaves it open and the second closes it |
| ModResources.ReusedNeverClosed | metadata/src/main/java/dev/neuralnexus/taterapi/meta/impl/platform/meta/ModResourceImpl.java:50-51 | a file system that already existed is never closed by the resource, however often it is closed |
| Paths.Folder | base/src/main/java/dev/neuralnexus/taterapi/util/PathUtils.java:23-36 | the mods, config and plugins folders are the working directory with one more name element, the folder's name |
| Paths.NestedJarCut | base/src/main/java/dev/neuralnexus/taterapi/util/PathUtils.java:45-46 | a nested-jar location is cut right after the `.jar` of its first `.jar!/` |
| Paths.PlainJarKept | base/src/main/java/dev/neuralnexus/taterapi/util/PathUtils.java:47-55 | a location that names a jar and holds no `.jar!/` is kept as it is (off Windows) |
| Paths.NonJarRejected | base/src/main/java/dev/neuralnexus/taterapi/util/PathUtils.java:47-58 | the call fails exactly when the location neither contains `.jar!/` nor ends in `.jar`, and the failure is the UnsupportedOperationException "Unable to determine JAR path for class: " plus the class name |
| Paths.WindowsDropsOneSlash | base/src/main/java/dev/neuralnexus/taterapi/util/PathUtils.java:51-54 | on Windows exactly one leading slash is dropped and nothing else changes; success does not depend on the platform |
| Cancellables.AfterSetCancelledMeaning | base/src/main/java/dev/neuralnexus/taterapi/mixin/CancellableMixin.java:29-34 | after a series of `setCancelled` calls the callback is cancelled exactly when it started so or some call passed `true` |
| Cancellables.StaysCancelled | base/src/main/java/dev/neuralnexus/taterapi/mixin/CancellableMixin.java:29-34 | once cancelled, no series of `setCancelled` calls un-cancels |
| Cancellables.Dummy.Cancelled | base/src/main/java/dev/neuralnexus/taterapi/event/Cancellable.java:30-34 | the dummy is never cancelled |
| Cancellables.Dummy.SetCancelled | base/src/main/java/dev/neuralnexus/taterapi/event/Cancellable.java:36-37 | the dummy ignores `setCancelled` and stays uncancelled |
| Cancellables.Dummy.Cancel | base/src/main/java/dev/neuralnexus/taterapi/event/Cancellable.java:26-28 | the default `cancel()` leaves the dummy uncancelled |
| Cancellables.CancellableMixin.constructor | base/src/main/java/dev/neuralnexus/taterapi/mixin/CancellableMixin.java:19-22 | the event wraps the given callback |
| Cancellables.CancellableMixin.SetCancelled | base/src/main/java/dev/neuralnexus/taterapi/mixin/CancellableMixin.java:29-34 | `true` cancels the callback, `false` leaves it as it was |
| Cancellables.CancellableMixin.Cancel | base/src/main/java/dev/neuralnexus/taterapi/event/Cancellable.java:26-28 | the default `cancel()` leaves the event cancelled |
| Cancellables.CancellableMixin.Unwrap | base/src/main/java/dev/neuralnexus/taterapi/mixin/CancellableMixin.java:36-39 | unwrapping gives the wrapped callback itself |

## Left out

- The bodies of the Java helpers this core calls are not part of this model, and they enter as parameters. Nothing is assumed about them except the hypotheses named in the next bullet:
  - `FlexVerComparator.compare` and `VersionUtil.Range.parse`;
  - `Constraint.range(...).result()`;
  - the FriendlyByteBuf primitives (VarInt, resource location, payload slice);
  - `checkAnnotation` and `isConstraintAnnotationNode`;
  - `NetworkRegistry.getCustomPayloadCodec`;
  - `StreamCodec.map`;
  - the per-platform `detect` probes and the kilt/connector checks;
  - `isModLoaded`, `isPlatformPresent`, and the mappings, side and version of the running game.
- The codec lemmas and buffer methods rest on these hypotheses about the FriendlyByteBuf primitives, stated as predicates in `Codecs`:
  - `Codecs.Consuming`: each reader (VarInt, resource location, payload, presence flag) leaves a suffix of its input. The buffer read methods and the lemmas that a codec is well behaved require it.
  - `Codecs.RoundTrips`: the VarInt, resource location and presence-flag readers read back what their writers wrote and leave what follows. The payload reader takes every readable byte and never fails, so any size limit the real `readPayload` enforces is not modelled. Every round-trip lemma requires it.
  - `Codecs.WellBehaved`: a codec found in the network registry, or given by its fallback provider, only consumes when decoding and only appends when encoding. `Payloads.FallbackDecodeFrom` and `Payloads.FallbackEncodeInto` require it.
- `readNullable` and `writeNullable` are taken to be a presence flag followed by the value when present. Their bodies are not part of this model.
- Payload data are values. The reader index left on a sliced buffer is therefore not modelled, and writing leaves the reader index unchanged.
- Exception messages are kept where they are constant. Their dynamic parts are dropped: the direction and phase ids in the "No protocol info" message, the class names `Class.toString` prints, and the causes.
- `PacketFlow` ids are left out. So are the version strings behind `MinecraftVersions.B1_7_3` and the `V…` constants, which are defined outside this model; they are named constants here.
- Codecs inside `ProtocolInfo` are identified by name.
- The static tables of `NetworkRegistry`, the evaluator cache, the platform sets, the bootstrapped-package set and the `MixinHacks` state are each one object passed to the code that uses them.
- `NetworkRegistry.getQueryPayloadCodec` and `getQueryAnswerPayloadCodec` are plain lookups, with no separate lemma beyond the register and unregister contracts.
- `ServerboundCustomPayloadPacket`, `ClientboundCustomPayloadPacket`, the `fromMC`/`toMC` adapter calls and `ADAPTER_CODEC` are not modelled. They depend on `StreamCodec.map` and `NetworkRegistry.adapters()`, which are not part of this model. The configuration and play phases still register these packets' ids by name.
- The `getMixinsFor` reflection into Mixin internals is not modelled. The pairs it yields are an input.
- The `ModResource.path()` supplier, the jar URI and the `FileSystems` calls are not modelled. Their outcome is an input.
- The reflective type tokens (`inputType`/`outputType`, `toClass`/`fromClass`) are stored fields. The `base` copy of `adapter.AdapterRegistry`/`AdapterCodec` is identical to the `core` copy apart from nullness annotations, and both are modelled by `Adapters`.
- SerializationRegistries.Reverse: states the swapped types the view is meant to carry. The reflective `inputType()` of the anonymous reverse class, which reads type variables, is outside the model.
- Adapters.Reverse: the same, for `toClass()`/`fromClass()`.
- Paths.Folder: the working directory is an input. `Paths.get("./").toAbsolutePath().normalize()` is not modelled.
- Paths.NonJarRejected: the location is the already URL-decoded string. `URLDecoder.decode`, the final `Paths.get(...).toAbsolutePath().normalize()` and the `os.name` test (an `isWindows` flag) are outside the model.
- ModResources.ModResource.Close: the `IOException` that `closeDelegate` may throw is not modelled.
- Cancellables.CancellableMixin.SetCancelled: the exception Mixin's `CallbackInfo.cancel` throws for a non-cancellable callback is not modelled.
- EntrypointLoaders.EntrypointLoader.LoadServiceLoader: each `ServiceConfigurationError` skips one discovered entry. A failure of `hasNext` itself, which the source does not catch, and the JDK iterator's behaviour after an error are not modelled.
- EntrypointLoaders.Builder.Build: the choice between `ServiceLoader.load(class)` and `ServiceLoader.load(class, classLoader)` is folded into the `discover` input, which receives the optional class loader. The built loader also gets a copy of the providers list. In Java it gets the builder's own `ArrayList` by reference, so `serviceClasses`, `servicePaths` or `serviceNames` calls on the builder after `build()` change what the loader's `load()` iterates. That sharing is not modelled, and the loader's providers here are those at the time of `build()`.
- Loggers, debug output, stack-trace printing and the builder's `logger` setter are left out; they do not affect any result.
- The `Constraint` record's `equals`, `hashCode` and `toString` are not modelled: a Dafny datatype has value equality (see `Constraints.ConstraintSet.OfDistinct` for what that changes). The cache is a map keyed by constraint value, and `WeakHashMap` collection is not modelled.
- `Constraint.from` reads `notDeps`, `notPlatform` and `notVersion`, which the annotation declaration does not show. They are fields of the annotation datatype here.
- Hash-set iteration order is left open, except in the two adapter registries below.
- SerializationRegistries.AdapterRegistry.GetTo: the codecs are held in registration order and the earliest match is returned. Java's `HashSet` iterates in identity-hash order, so when several held codecs output the class, the one Java returns is unspecified. That the result matches, and that nothing is returned only when nothing matches, holds in any order.
- SerializationRegistries.AdapterRegistry.GetFrom: the same, for codecs taking the class as input.
- SerializationRegistries.AdapterRegistry.Get: the same, for the exact pair and then for the swapped pair.
- Adapters.AdapterRegistry.GetTo: the same, for adapters with that `fromClass`.
- Adapters.AdapterRegistry.GetFrom: the same, for adapters with that `toClass`.
- Adapters.AdapterRegistry.Get: the same, for the exact pair and then for the swapped pair.
- Constraints.EvalVersion: the range bounds are compared with UNKNOWN by value. Java compares references (`constraint.min != MinecraftVersions.UNKNOWN`). A bound passed to `Builder.min`/`max`/`notMin`/`notMax` that equals UNKNOWN but is another object (say `MinecraftVersionImpl.of("unknown")`) is range-checked in Java and skipped here. The builder's defaults are the UNKNOWN object itself, and there the two agree.
- Results.SuccessOf: a success holding `null` is not modelled, since model values are never null. In Java its `result()` throws a NullPointerException (`Optional.of`), and its `unwrap()` gives null just as an error's does.
- Wrappers.EncoderRegistry.Wrap: for the same reason, the null that a success holding `null` unwraps to is not distinguished from an error's.
- Versions.Of: `of(null)` throws a NullPointerException in Java; model strings are never null.
- Constraints.ConstraintSet.OfDistinct: a repeated constraint is one equal by value. In Java, `Constraint.equals` compares `hashCode()` values, and that hash is built from the `Collections.unmodifiableCollection` views that `Builder.build` makes, which keep Object's identity hash. So two constraints built separately from the same values are refused here but accepted by `Set.of`, barring a 32-bit hash collision; only the same object passed twice is refused by both. For the same reason, the set that `checkConstraints` collects merges almost nothing in Java, which does not change whether all of them hold, and the evaluator's `WeakHashMap` cache hits only for the same object, which does not change any answer.
- LoginPackets.WriteClientbound, LoginPackets.WriteServerbound and LoginPackets.WriteServerboundAsWritten: `write` encodes the payload with the payload's own `codec()`. The model uses the interfaces' `DEFAULT_CODEC`, which is what `CustomQueryPayloadImpl.codec()` and `CustomQueryAnswerPayloadImpl.codec()` return. A payload class of another library that overrides `codec()` is not covered.
- The per-platform Meta classes, the `MCVProvider` classes, `Component`/`Identifier`/`NameAndId` reflection, the platform entry points and the Gradle build scripts are not part of this model.
- `checkReqMappings` has no member of its own: it is written inline in `Annotations.CheckAnnotation`, and `Annotations.MappingsAgreeWithConstraint` relates it to the constraint evaluator.

## Findings

| source | as written | input that shows it | evidently intended | confidence | as-written member | corrected member |
|---|---|---|---|---|---|---|
| metadata/src/main/java/dev/neuralnexus/taterapi/meta/Constraint.java:482-483 | the forbidden-platform branch of `evalPlatform` asks whether any platform of the required list `platform` is present | `notPlatform = {FORGE}`, `platform = {}`, running on Forge: the constraint passes; and `platform = {FORGE}`, `notPlatform = {FABRIC}`, on Forge without Fabric: it fails | it should ask about the `notPlatform` list, so that the constraint fails on a forbidden platform | high (not executed) | Constraints.PlatformExclusionAsWrittenMisses | Constraints.ForbiddenPlatformRejects |
| core/src/main/java/dev/neuralnexus/taterapi/network/protocol/login/ServerboundCustomQueryAnswerPacket.java:41-48 | `write` evaluates `this.payload.codec()` before `writeNullable`, even when the payload is null | a packet from the one-argument constructor `new ServerboundCustomQueryAnswerPacket(id)`: `write` throws a NullPointerException | `writeNullable` writes an absent payload as its flag alone | high (not executed) | LoginPackets.AsWrittenRejectsAnswerWithoutPayload | LoginPackets.ServerboundRoundTrip |

The constraint evaluation of the model is the code as written: `Constraints.Holds` and `Constraints.Evaluator.Evaluate` use `Constraints.EvalPlatformAsWritten`, so everything built on them (constraint sets, the annotation checks, mixin gating, entrypoint filtering) inherits the first finding. The intended evaluation is `Constraints.HoldsIntended`, with `Constraints.EvalPlatform`. For the login packet, `LoginPackets.WriteServerboundAsWritten` is `write` as written, and `LoginPackets.EncodeServerbound`, the encoder of `LoginPackets.ServerboundCodec`, is the corrected one: an encoder here cannot throw.
