/**
 * Platform detection and layering (`Platforms`): priority chains that add a
 * derivative platform together with its parents, the choice of a primary
 * platform, and the insertion-ordered, duplicate-free layering built on it.
 *
 * Each platform's own `detect(force)` probe and the Kilt / Connector mod
 * checks are inputs of the model.
 */
module Platforms {
  import opened Java

  /** The platform constants `Platforms` inherits, and its own UNKNOWN. */
  datatype Platform =
    | GOLDENFORGE | MCPCPLUSPLUS | CAULDRON | KCAULDRON | THERMOS | CRUCIBLE
    | MOHIST | CATSERVER | KETTING | FORGE
    | YOUER | NEOFORGE
    | QUILT | CARDBOARD | BANNER | FABRIC
    | PURPUR | PUFFERFISH | PAPER | SPIGOT | POSEIDON | BUKKIT | FOLIA
    | TRAVERTINE | LIGHTFALL | WATERFALL | BUNGEECORD
    | ARCLIGHT | MAGMA | SPONGE | VELOCITY | IGNITE | VANILLA | UNKNOWN

  /** A platform's `detect(force)` probe. */
  type Probe = (Platform, bool) -> bool

  /** The mod checks `detectPrimary` makes when both Forge and a Fabric loader are present. */
  datatype Bridges = Bridges(kilt: bool, forgeConnector: bool, neoForgeConnector: bool)

  // ---------------------------------------------------------------- detection

  /** One branch of a priority chain: if `probe` is detected, add `adds`. */
  datatype Rule = Rule(probe: Platform, adds: set<Platform>)

  const FORGE_CHAIN: seq<Rule> := [
    Rule(GOLDENFORGE, {GOLDENFORGE, FORGE}), Rule(MCPCPLUSPLUS, {MCPCPLUSPLUS, FORGE}),
    Rule(CAULDRON, {CAULDRON, FORGE}), Rule(KCAULDRON, {KCAULDRON, FORGE}),
    Rule(THERMOS, {THERMOS, FORGE}), Rule(CRUCIBLE, {CRUCIBLE, FORGE}),
    Rule(MOHIST, {MOHIST, FORGE}), Rule(CATSERVER, {CATSERVER, FORGE}),
    Rule(KETTING, {KETTING, FORGE}), Rule(FORGE, {FORGE})]

  const NEOFORGE_CHAIN: seq<Rule> := [Rule(YOUER, {YOUER, NEOFORGE}), Rule(NEOFORGE, {NEOFORGE})]

  const FABRIC_CHAIN: seq<Rule> := [
    Rule(QUILT, {QUILT, FABRIC}), Rule(CARDBOARD, {CARDBOARD, FABRIC}),
    Rule(BANNER, {BANNER, FABRIC}), Rule(FABRIC, {FABRIC})]

  const BUKKIT_CHAIN: seq<Rule> := [
    Rule(PURPUR, {PURPUR, PUFFERFISH, PAPER, SPIGOT, BUKKIT}),
    Rule(PUFFERFISH, {PUFFERFISH, PAPER, SPIGOT, BUKKIT}),
    Rule(PAPER, {PAPER, SPIGOT, BUKKIT}), Rule(SPIGOT, {SPIGOT, BUKKIT}),
    Rule(POSEIDON, {POSEIDON, BUKKIT}), Rule(BUKKIT, {BUKKIT})]

  const BUNGEECORD_CHAIN: seq<Rule> := [
    Rule(TRAVERTINE, {TRAVERTINE, WATERFALL, BUNGEECORD}),
    Rule(LIGHTFALL, {LIGHTFALL, WATERFALL, BUNGEECORD}),
    Rule(WATERFALL, {WATERFALL, BUNGEECORD}), Rule(BUNGEECORD, {BUNGEECORD})]

  const HYBRID_CHAIN: seq<Rule> := [Rule(ARCLIGHT, {ARCLIGHT}), Rule(MAGMA, {MAGMA})]

  /** The platforms a chain adds from branch `i` on: those of the first detected branch. */
  function FirstFrom(detect: Probe, force: bool, chain: seq<Rule>, i: nat): set<Platform>
    decreases |chain| - i
  {
    if i >= |chain| then {}
    else if detect(chain[i].probe, force) then chain[i].adds
    else FirstFrom(detect, force, chain, i + 1)
  }

  /** The platforms one chain adds. */
  function FirstMatch(detect: Probe, force: bool, chain: seq<Rule>): set<Platform>
  {
    FirstFrom(detect, force, chain, 0)
  }

  /** A platform probed on its own, outside any chain. */
  function Alone(detect: Probe, force: bool, p: Platform): set<Platform>
  {
    if detect(p, force) then {p} else {}
  }

  /** Everything one detection pass adds. */
  function Detected(detect: Probe, force: bool): set<Platform>
  {
    FirstMatch(detect, force, FORGE_CHAIN) + FirstMatch(detect, force, NEOFORGE_CHAIN)
    + FirstMatch(detect, force, FABRIC_CHAIN) + FirstMatch(detect, force, BUKKIT_CHAIN)
    + Alone(detect, force, FOLIA) + FirstMatch(detect, force, BUNGEECORD_CHAIN)
    + FirstMatch(detect, force, HYBRID_CHAIN) + Alone(detect, force, SPONGE)
    + Alone(detect, force, VELOCITY) + Alone(detect, force, IGNITE)
  }

  /** No branch of the chain from `i` on is detected before `k`. */
  predicate NoneDetected(detect: Probe, force: bool, chain: seq<Rule>, i: nat, k: nat)
    requires k <= |chain|
  {
    forall j :: i <= j < k ==> !detect(chain[j].probe, force)
  }

  /**
   * In a chain exactly the first detected branch fires: the chain adds that
   * branch's platforms, and nothing when no branch is detected.
   */
  lemma {:induction false} FirstFromIsFirstDetected(detect: Probe, force: bool, chain: seq<Rule>, i: nat, k: nat)
    requires i <= k <= |chain| && NoneDetected(detect, force, chain, i, k)
    ensures k == |chain| ==> FirstFrom(detect, force, chain, i) == {}
    ensures k < |chain| && detect(chain[k].probe, force) ==>
              FirstFrom(detect, force, chain, i) == chain[k].adds
    decreases k - i
  {
    if i < k {
      FirstFromIsFirstDetected(detect, force, chain, i + 1, k);
    }
  }

  /** What a chain adds always comes from one of its branches. */
  lemma {:induction false} FirstFromWithin(detect: Probe, force: bool, chain: seq<Rule>, i: nat, p: Platform)
    requires p in FirstFrom(detect, force, chain, i)
    ensures exists k :: i <= k < |chain| && p in chain[k].adds
    decreases |chain| - i
  {
    if !detect(chain[i].probe, force) {
      FirstFromWithin(detect, force, chain, i + 1, p);
    }
  }

  /** A derivative drags its whole ancestry in: Purpur brings Pufferfish, Paper, Spigot and Bukkit. */
  lemma PurpurAddsParents(detect: Probe, force: bool)
    requires detect(PURPUR, force)
    ensures {PURPUR, PUFFERFISH, PAPER, SPIGOT, BUKKIT} <= Detected(detect, force)
  {
    assert FirstMatch(detect, force, BUKKIT_CHAIN) == BUKKIT_CHAIN[0].adds;
  }

  /** Whatever the Forge chain adds, Forge is among it. */
  lemma ForgeChainAddsForge(detect: Probe, force: bool)
    ensures FirstMatch(detect, force, FORGE_CHAIN) == {} || FORGE in FirstMatch(detect, force, FORGE_CHAIN)
  {
    ForgeChainMatches(detect, force);
  }

  /** Folia, Sponge, Velocity and Ignite are detected by their own probes alone. */
  lemma IndependentPlatforms(detect: Probe, force: bool, p: Platform)
    requires p == FOLIA || p == SPONGE || p == VELOCITY || p == IGNITE
    ensures p in Detected(detect, force) <==> detect(p, force)
  {
    ChainRanges(detect, force, p);
    var chains := FirstMatch(detect, force, FORGE_CHAIN) + FirstMatch(detect, force, NEOFORGE_CHAIN)
      + FirstMatch(detect, force, FABRIC_CHAIN) + FirstMatch(detect, force, BUKKIT_CHAIN)
      + FirstMatch(detect, force, BUNGEECORD_CHAIN) + FirstMatch(detect, force, HYBRID_CHAIN);
    assert p !in chains;
    var alone := Alone(detect, force, FOLIA) + Alone(detect, force, SPONGE)
      + Alone(detect, force, VELOCITY) + Alone(detect, force, IGNITE);
    assert Detected(detect, force) == chains + alone;
    assert p in alone <==> detect(p, force);
  }

  /** The platforms each chain can add at most. */
  lemma ChainRanges(detect: Probe, force: bool, p: Platform)
    ensures p in FirstMatch(detect, force, FORGE_CHAIN) ==>
              p in {GOLDENFORGE, MCPCPLUSPLUS, CAULDRON, KCAULDRON, THERMOS, CRUCIBLE, MOHIST, CATSERVER, KETTING, FORGE}
    ensures p in FirstMatch(detect, force, NEOFORGE_CHAIN) ==> p in {YOUER, NEOFORGE}
    ensures p in FirstMatch(detect, force, FABRIC_CHAIN) ==> p in {QUILT, CARDBOARD, BANNER, FABRIC}
    ensures p in FirstMatch(detect, force, BUKKIT_CHAIN) ==> p in {PURPUR, PUFFERFISH, PAPER, SPIGOT, POSEIDON, BUKKIT}
    ensures p in FirstMatch(detect, force, BUNGEECORD_CHAIN) ==> p in {TRAVERTINE, LIGHTFALL, WATERFALL, BUNGEECORD}
    ensures p in FirstMatch(detect, force, HYBRID_CHAIN) ==> p in {ARCLIGHT, MAGMA}
  {
    ForgeChainRange(detect, force, p);
    BukkitChainRange(detect, force, p);
    ShortChainRanges(detect, force, p);
  }

  lemma ShortChainRanges(detect: Probe, force: bool, p: Platform)
    ensures p in FirstMatch(detect, force, NEOFORGE_CHAIN) ==> p in {YOUER, NEOFORGE}
    ensures p in FirstMatch(detect, force, FABRIC_CHAIN) ==> p in {QUILT, CARDBOARD, BANNER, FABRIC}
    ensures p in FirstMatch(detect, force, BUNGEECORD_CHAIN) ==> p in {TRAVERTINE, LIGHTFALL, WATERFALL, BUNGEECORD}
    ensures p in FirstMatch(detect, force, HYBRID_CHAIN) ==> p in {ARCLIGHT, MAGMA}
  {
    ShortChainsMatch(detect, force);
  }

  lemma ForgeChainRange(detect: Probe, force: bool, p: Platform)
    ensures p in FirstMatch(detect, force, FORGE_CHAIN) ==>
              p in {GOLDENFORGE, MCPCPLUSPLUS, CAULDRON, KCAULDRON, THERMOS, CRUCIBLE, MOHIST, CATSERVER, KETTING, FORGE}
  {
    ForgeChainMatches(detect, force);
  }

  lemma BukkitChainRange(detect: Probe, force: bool, p: Platform)
    ensures p in FirstMatch(detect, force, BUKKIT_CHAIN) ==> p in {PURPUR, PUFFERFISH, PAPER, SPIGOT, POSEIDON, BUKKIT}
  {
    BukkitChainMatches(detect, force);
  }

  // ---------------------------------------------------------------- primary platform

  /** The message of the exception `detectPrimary` throws for Forge with Fabric and no bridge. */
  const NO_BRIDGE_MESSAGE := "Both Forge and Fabric platforms detected, but neither Connector nor Kilt found. Cannot determine primary platform."

  /**
   * `detectPrimary`: the proxies first, then the Forge/Fabric bridges, then
   * the loaders and servers in a fixed order; Forge with Fabric and neither
   * Kilt nor Connector is an error.
   */
  function DetectPrimary(platforms: set<Platform>, bridges: Bridges): Except<Platform>
  {
    if BUNGEECORD in platforms then Ok(BUNGEECORD)
    else if VELOCITY in platforms then Ok(VELOCITY)
    else if FORGE in platforms && FABRIC in platforms then
      if bridges.kilt then Ok(FABRIC)
      else if bridges.forgeConnector then Ok(FORGE)
      else Throw(IllegalArgument(NO_BRIDGE_MESSAGE))
    else if NEOFORGE in platforms && FABRIC in platforms && bridges.neoForgeConnector then Ok(NEOFORGE)
    else if FORGE in platforms then Ok(FORGE)
    else if NEOFORGE in platforms then Ok(NEOFORGE)
    else if FABRIC in platforms then Ok(FABRIC)
    else if SPONGE in platforms then Ok(SPONGE)
    else if PAPER in platforms then Ok(PAPER)
    else if BUKKIT in platforms then Ok(BUKKIT)
    else Ok(UNKNOWN)
  }

  /** `detectPrimary` fails exactly on Forge with Fabric, no proxy, and neither Kilt nor Connector. */
  lemma PrimaryFailure(platforms: set<Platform>, bridges: Bridges)
    ensures DetectPrimary(platforms, bridges).Throw? <==>
              BUNGEECORD !in platforms && VELOCITY !in platforms
              && FORGE in platforms && FABRIC in platforms
              && !bridges.kilt && !bridges.forgeConnector
  {
  }

  /** A known primary is one of the detected platforms, and one `layerPlatforms` has a branch for. */
  lemma PrimaryIsDetected(platforms: set<Platform>, bridges: Bridges)
    ensures var r := DetectPrimary(platforms, bridges);
            r.Ok? && r.value != UNKNOWN ==> r.value in platforms && IsLayeredPrimary(r.value)
  {
  }

  /** UNKNOWN only when none of the eight platforms `detectPrimary` looks for was detected. */
  lemma PrimaryUnknown(platforms: set<Platform>, bridges: Bridges)
    ensures DetectPrimary(platforms, bridges) == Ok(UNKNOWN) <==>
              BUNGEECORD !in platforms && VELOCITY !in platforms && FORGE !in platforms
              && NEOFORGE !in platforms && FABRIC !in platforms && SPONGE !in platforms
              && PAPER !in platforms && BUKKIT !in platforms
  {
  }

  /** The proxies take precedence over everything; Kilt wins over Connector. */
  lemma PrimaryPriority(platforms: set<Platform>, bridges: Bridges)
    ensures BUNGEECORD in platforms ==> DetectPrimary(platforms, bridges) == Ok(BUNGEECORD)
    ensures BUNGEECORD !in platforms && VELOCITY in platforms ==>
              DetectPrimary(platforms, bridges) == Ok(VELOCITY)
    ensures BUNGEECORD !in platforms && VELOCITY !in platforms && FORGE in platforms
            && FABRIC in platforms && bridges.kilt
            ==> DetectPrimary(platforms, bridges) == Ok(FABRIC)
    ensures BUNGEECORD !in platforms && VELOCITY !in platforms && FORGE in platforms
            && FABRIC in platforms && !bridges.kilt && bridges.forgeConnector
            ==> DetectPrimary(platforms, bridges) == Ok(FORGE)
  {
  }

  // ---------------------------------------------------------------- layering

  /** No platform appears twice. */
  predicate NoDuplicates(s: seq<Platform>)
  {
    forall i, j :: 0 <= i < j < |s| ==> s[i] != s[j]
  }

  /** `LinkedHashSet.add`: append unless already present. */
  function Add(s: seq<Platform>, p: Platform): seq<Platform>
  {
    if p in s then s else s + [p]
  }

  /** `add` keeps the order and the absence of duplicates, adds exactly `p` and drops nothing. */
  lemma AddMeaning(s: seq<Platform>, p: Platform)
    ensures NoDuplicates(s) ==> NoDuplicates(Add(s, p))
    ensures forall x :: x in Add(s, p) <==> x in s || x == p
    ensures s <= Add(s, p)
  {
  }

  /** `add(p)` guarded by `platforms.contains(c)`. */
  function AddIf(s: seq<Platform>, platforms: set<Platform>, c: Platform, p: Platform): seq<Platform>
  {
    if c in platforms then Add(s, p) else s
  }

  /** The guarded add adds `p` exactly when `c` was detected, and otherwise behaves as `add`. */
  lemma AddIfMeaning(s: seq<Platform>, platforms: set<Platform>, c: Platform, p: Platform)
    ensures NoDuplicates(s) ==> NoDuplicates(AddIf(s, platforms, c, p))
    ensures forall x :: x in AddIf(s, platforms, c, p) <==> x in s || (x == p && c in platforms)
    ensures s <= AddIf(s, platforms, c, p)
  {
    AddMeaning(s, p);
  }

  /** The prefix of a mod-loader primary (Fabric, Forge, NeoForge). */
  function LoaderPrefix(primary: Platform, second: Platform, platforms: set<Platform>): seq<Platform>
  {
    AddIf(Add(AddIf(AddIf(AddIf(Add([], primary), platforms, SPONGE, SPONGE), platforms, second, second),
                    platforms, PAPER, PAPER), VANILLA), platforms, BUKKIT, BUKKIT)
  }

  /** The platforms `layerPlatforms` places before it adds all the detected ones. */
  function LayerPrefix(primary: Platform, platforms: set<Platform>): seq<Platform>
  {
    match primary
    case FABRIC => LoaderPrefix(FABRIC, FORGE, platforms)
    case FORGE => LoaderPrefix(FORGE, FABRIC, platforms)
    case NEOFORGE => LoaderPrefix(NEOFORGE, FABRIC, platforms)
    case SPONGE =>
      AddIf(AddIf(Add(AddIf(Add([], SPONGE), platforms, PAPER, PAPER), VANILLA),
                  platforms, PAPER, PAPER), platforms, BUKKIT, BUKKIT)
    case PAPER => AddIf(Add(AddIf(Add([], PAPER), platforms, IGNITE, IGNITE), VANILLA), platforms, BUKKIT, BUKKIT)
    case BUKKIT => Add(AddIf(Add([], BUKKIT), platforms, IGNITE, IGNITE), VANILLA)
    case BUNGEECORD => AddIf(Add([], BUNGEECORD), platforms, IGNITE, IGNITE)
    case VELOCITY => AddIf(Add([], VELOCITY), platforms, IGNITE, IGNITE)
    case _ => []
  }

  /** A primary platform `layerPlatforms` has a branch for. */
  predicate IsLayeredPrimary(p: Platform)
  {
    p == FABRIC || p == FORGE || p == NEOFORGE || p == SPONGE || p == PAPER || p == BUKKIT
    || p == BUNGEECORD || p == VELOCITY
  }

  /** A proxy primary. */
  predicate IsProxy(p: Platform)
  {
    p == BUNGEECORD || p == VELOCITY
  }

  /**
   * A layering under construction: the primary first, no duplicates, and
   * besides the primary and Vanilla only detected platforms.
   */
  predicate Layering(primary: Platform, platforms: set<Platform>, s: seq<Platform>)
  {
    && NoDuplicates(s)
    && |s| > 0 && s[0] == primary
    && (forall p :: p in s ==> p in platforms || p == primary || p == VANILLA)
  }

  /** What the layering prefix promises for one primary. */
  predicate PrefixShape(primary: Platform, platforms: set<Platform>, s: seq<Platform>)
  {
    && (IsLayeredPrimary(primary) ==> Layering(primary, platforms, s))
    && (!IsLayeredPrimary(primary) ==> s == [])
    && (VANILLA in s <==> IsLayeredPrimary(primary) && !IsProxy(primary))
  }

  /** Every branch starts with `add(primary)` on the empty set. */
  lemma StartLayering(primary: Platform, platforms: set<Platform>)
    requires primary != VANILLA
    ensures Layering(primary, platforms, Add([], primary)) && VANILLA !in Add([], primary)
  {
    assert Add([], primary) == [primary];
  }

  /** A platform added only when it was itself detected keeps the layering, and Vanilla's presence. */
  lemma AddDetected(primary: Platform, platforms: set<Platform>, s: seq<Platform>, p: Platform)
    requires Layering(primary, platforms, s) && p != VANILLA
    ensures Layering(primary, platforms, AddIf(s, platforms, p, p))
    ensures VANILLA in AddIf(s, platforms, p, p) <==> VANILLA in s
  {
    AddIfMeaning(s, platforms, p, p);
  }

  /** The unconditional `add(VANILLA)` keeps the layering and puts Vanilla in it. */
  lemma AddVanilla(primary: Platform, platforms: set<Platform>, s: seq<Platform>)
    requires Layering(primary, platforms, s)
    ensures Layering(primary, platforms, Add(s, VANILLA)) && VANILLA in Add(s, VANILLA)
  {
    AddMeaning(s, VANILLA);
  }

  /** The three mod loaders put Vanilla after themselves and their bridged loader. */
  lemma LoaderPrefixShape(primary: Platform, second: Platform, platforms: set<Platform>)
    requires primary == FABRIC || primary == FORGE || primary == NEOFORGE
    requires second != VANILLA
    ensures PrefixShape(primary, platforms, LoaderPrefix(primary, second, platforms))
  {
    var s0 := Add([], primary);
    StartLayering(primary, platforms);
    var s1 := AddIf(s0, platforms, SPONGE, SPONGE);
    AddDetected(primary, platforms, s0, SPONGE);
    var s2 := AddIf(s1, platforms, second, second);
    AddDetected(primary, platforms, s1, second);
    var s3 := AddIf(s2, platforms, PAPER, PAPER);
    AddDetected(primary, platforms, s2, PAPER);
    var s4 := Add(s3, VANILLA);
    AddVanilla(primary, platforms, s3);
    AddDetected(primary, platforms, s4, BUKKIT);
  }

  /** Sponge first, Paper if detected, then Vanilla, then Bukkit if detected. */
  lemma SpongePrefixShape(platforms: set<Platform>)
    ensures PrefixShape(SPONGE, platforms, LayerPrefix(SPONGE, platforms))
  {
    var s0 := Add([], SPONGE);
    StartLayering(SPONGE, platforms);
    var s1 := AddIf(s0, platforms, PAPER, PAPER);
    AddDetected(SPONGE, platforms, s0, PAPER);
    var s2 := Add(s1, VANILLA);
    AddVanilla(SPONGE, platforms, s1);
    var s3 := AddIf(s2, platforms, PAPER, PAPER);
    AddDetected(SPONGE, platforms, s2, PAPER);
    AddDetected(SPONGE, platforms, s3, BUKKIT);
  }

  /** Paper first, Ignite if detected, then Vanilla, then Bukkit if detected. */
  lemma PaperPrefixShape(platforms: set<Platform>)
    ensures PrefixShape(PAPER, platforms, LayerPrefix(PAPER, platforms))
  {
    var s0 := Add([], PAPER);
    StartLayering(PAPER, platforms);
    var s1 := AddIf(s0, platforms, IGNITE, IGNITE);
    AddDetected(PAPER, platforms, s0, IGNITE);
    var s2 := Add(s1, VANILLA);
    AddVanilla(PAPER, platforms, s1);
    AddDetected(PAPER, platforms, s2, BUKKIT);
  }

  /** Bukkit first, Ignite if detected, then Vanilla. */
  lemma BukkitPrefixShape(platforms: set<Platform>)
    ensures PrefixShape(BUKKIT, platforms, LayerPrefix(BUKKIT, platforms))
  {
    var s0 := Add([], BUKKIT);
    StartLayering(BUKKIT, platforms);
    var s1 := AddIf(s0, platforms, IGNITE, IGNITE);
    AddDetected(BUKKIT, platforms, s0, IGNITE);
    AddVanilla(BUKKIT, platforms, s1);
  }

  /** Sponge, Paper and Bukkit primaries: first themselves, Vanilla included. */
  lemma ServerPrefixShape(primary: Platform, platforms: set<Platform>)
    requires primary == SPONGE || primary == PAPER || primary == BUKKIT
    ensures PrefixShape(primary, platforms, LayerPrefix(primary, platforms))
  {
    if primary == SPONGE {
      SpongePrefixShape(platforms);
    } else if primary == PAPER {
      PaperPrefixShape(platforms);
    } else {
      BukkitPrefixShape(platforms);
    }
  }

  /** Proxy primaries: first themselves, Ignite if detected, and no Vanilla layer. */
  lemma ProxyPrefixShape(primary: Platform, platforms: set<Platform>)
    requires IsProxy(primary)
    ensures PrefixShape(primary, platforms, LayerPrefix(primary, platforms))
  {
    StartLayering(primary, platforms);
    AddDetected(primary, platforms, Add([], primary), IGNITE);
  }

  /**
   * The layering prefix starts with the primary, has no duplicates, holds
   * VANILLA exactly when the primary is not a proxy, and otherwise only
   * platforms that were detected.
   */
  lemma LayerPrefixShape(primary: Platform, platforms: set<Platform>)
    ensures PrefixShape(primary, platforms, LayerPrefix(primary, platforms))
  {
    if primary == FABRIC {
      LoaderPrefixShape(FABRIC, FORGE, platforms);
    } else if primary == FORGE || primary == NEOFORGE {
      LoaderPrefixShape(primary, FABRIC, platforms);
    } else if primary == SPONGE || primary == PAPER || primary == BUKKIT {
      ServerPrefixShape(primary, platforms);
    } else if IsProxy(primary) {
      ProxyPrefixShape(primary, platforms);
    }
  }

  /**
   * The detected platforms (`platforms`) and their layering (`layered`),
   * with the probes and bridge checks of the running environment.
   */
  class Registry {
    var platforms: set<Platform>
    var layered: seq<Platform>
    const detect: Probe
    const bridges: Bridges

    ghost predicate Valid()
      reads this
    {
      NoDuplicates(layered)
    }

    constructor (detect: Probe, bridges: Bridges)
      ensures Valid() && platforms == {} && layered == []
      ensures this.detect == detect && this.bridges == bridges
    {
      this.detect := detect;
      this.bridges := bridges;
      platforms := {};
      layered := [];
    }

    /** `detectPlatforms(force)`: one detection pass, which only ever adds. */
    method DetectPlatforms(force: bool)
      modifies this`platforms
      ensures !force && old(platforms) != {} ==> platforms == old(platforms)
      ensures force || old(platforms) == {} ==> platforms == old(platforms) + Detected(detect, force)
    {
      if !force && platforms != {} {
        return;
      }
      ghost var before := platforms;
      DetectForge(force);
      DetectNeoForge(force);
      DetectFabric(force);
      DetectBukkit(force);
      ghost var loaders := platforms;
      if detect(FOLIA, force) {
        platforms := platforms + {FOLIA};
      }
      assert platforms == loaders + Alone(detect, force, FOLIA);
      DetectBungeeCord(force);
      DetectHybrids(force);
      ghost var hybrids := platforms;
      if detect(SPONGE, force) {
        platforms := platforms + {SPONGE};
      }
      assert platforms == hybrids + Alone(detect, force, SPONGE);
      ghost var sponge := platforms;
      if detect(VELOCITY, force) {
        platforms := platforms + {VELOCITY};
      }
      assert platforms == sponge + Alone(detect, force, VELOCITY);
      ghost var velocity := platforms;
      if detect(IGNITE, force) {
        platforms := platforms + {IGNITE};
      }
      assert platforms == velocity + Alone(detect, force, IGNITE);
      assert forall x :: x in platforms <==> x in before || x in Detected(detect, force);
    }

    /** The Forge block of `detectPlatforms`: a Forge hybrid adds itself and Forge. */
    method DetectForge(force: bool)
      modifies this`platforms
      ensures platforms == old(platforms) + FirstMatch(detect, force, FORGE_CHAIN)
    {
      ForgeChainMatches(detect, force);
      if detect(GOLDENFORGE, force) {
        platforms := platforms + {GOLDENFORGE, FORGE};
      } else if detect(MCPCPLUSPLUS, force) {
        platforms := platforms + {MCPCPLUSPLUS, FORGE};
      } else if detect(CAULDRON, force) {
        platforms := platforms + {CAULDRON, FORGE};
      } else if detect(KCAULDRON, force) {
        platforms := platforms + {KCAULDRON, FORGE};
      } else if detect(THERMOS, force) {
        platforms := platforms + {THERMOS, FORGE};
      } else if detect(CRUCIBLE, force) {
        platforms := platforms + {CRUCIBLE, FORGE};
      } else if detect(MOHIST, force) {
        platforms := platforms + {MOHIST, FORGE};
      } else if detect(CATSERVER, force) {
        platforms := platforms + {CATSERVER, FORGE};
      } else if detect(KETTING, force) {
        platforms := platforms + {KETTING, FORGE};
      } else if detect(FORGE, force) {
        platforms := platforms + {FORGE};
      }
    }

    /** The NeoForge block of `detectPlatforms`. */
    method DetectNeoForge(force: bool)
      modifies this`platforms
      ensures platforms == old(platforms) + FirstMatch(detect, force, NEOFORGE_CHAIN)
    {
      ShortChainsMatch(detect, force);
      if detect(YOUER, force) {
        platforms := platforms + {YOUER, NEOFORGE};
      } else if detect(NEOFORGE, force) {
        platforms := platforms + {NEOFORGE};
      }
    }

    /** The Fabric block of `detectPlatforms`: Quilt and the Fabric hybrids add Fabric too. */
    method DetectFabric(force: bool)
      modifies this`platforms
      ensures platforms == old(platforms) + FirstMatch(detect, force, FABRIC_CHAIN)
    {
      ShortChainsMatch(detect, force);
      if detect(QUILT, force) {
        platforms := platforms + {QUILT, FABRIC};
      } else if detect(CARDBOARD, force) {
        platforms := platforms + {CARDBOARD, FABRIC};
      } else if detect(BANNER, force) {
        platforms := platforms + {BANNER, FABRIC};
      } else if detect(FABRIC, force) {
        platforms := platforms + {FABRIC};
      }
    }

    /** The Bukkit block of `detectPlatforms`: each fork adds the platforms it derives from. */
    method DetectBukkit(force: bool)
      modifies this`platforms
      ensures platforms == old(platforms) + FirstMatch(detect, force, BUKKIT_CHAIN)
    {
      BukkitChainMatches(detect, force);
      if detect(PURPUR, force) {
        platforms := platforms + {PURPUR, PUFFERFISH, PAPER, SPIGOT, BUKKIT};
      } else if detect(PUFFERFISH, force) {
        platforms := platforms + {PUFFERFISH, PAPER, SPIGOT, BUKKIT};
      } else if detect(PAPER, force) {
        platforms := platforms + {PAPER, SPIGOT, BUKKIT};
      } else if detect(SPIGOT, force) {
        platforms := platforms + {SPIGOT, BUKKIT};
      } else if detect(POSEIDON, force) {
        platforms := platforms + {POSEIDON, BUKKIT};
      } else if detect(BUKKIT, force) {
        platforms := platforms + {BUKKIT};
      }
    }

    /** The BungeeCord block of `detectPlatforms`. */
    method DetectBungeeCord(force: bool)
      modifies this`platforms
      ensures platforms == old(platforms) + FirstMatch(detect, force, BUNGEECORD_CHAIN)
    {
      ShortChainsMatch(detect, force);
      if detect(TRAVERTINE, force) {
        platforms := platforms + {TRAVERTINE, WATERFALL, BUNGEECORD};
      } else if detect(LIGHTFALL, force) {
        platforms := platforms + {LIGHTFALL, WATERFALL, BUNGEECORD};
      } else if detect(WATERFALL, force) {
        platforms := platforms + {WATERFALL, BUNGEECORD};
      } else if detect(BUNGEECORD, force) {
        platforms := platforms + {BUNGEECORD};
      }
    }

    /** The hybrid block of `detectPlatforms`: Arclight, else Magma. */
    method DetectHybrids(force: bool)
      modifies this`platforms
      ensures platforms == old(platforms) + FirstMatch(detect, force, HYBRID_CHAIN)
    {
      ShortChainsMatch(detect, force);
      if detect(ARCLIGHT, force) {
        platforms := platforms + {ARCLIGHT};
      } else if detect(MAGMA, force) {
        platforms := platforms + {MAGMA};
      }
    }

    /**
     * `layerPlatforms`: clears the layering, then adds the primary's prefix
     * and every detected platform. A failing `detectPrimary` leaves it empty.
     */
    method LayerPlatforms() returns (r: Except<()>)
      modifies this`layered
      ensures Valid()
      ensures r.Throw? <==> DetectPrimary(platforms, bridges).Throw?
      ensures r.Throw? ==> layered == [] && r.error == DetectPrimary(platforms, bridges).error
      ensures r.Ok? ==>
                var prefix := LayerPrefix(DetectPrimary(platforms, bridges).value, platforms);
                prefix <= layered && forall x :: x in layered <==> x in prefix || x in platforms
    {
      layered := [];
      var primary := DetectPrimary(platforms, bridges);
      if primary.Throw? {
        return Throw(primary.error);
      }
      var p := primary.value;
      AddPrefix(p);
      LayerPrefixShape(p, platforms);
      AddAll();
      r := Ok(());
    }

    /** The `switch` of `layerPlatforms`: the primary and the platforms layered under it. */
    method AddPrefix(p: Platform)
      requires layered == []
      modifies this`layered
      ensures layered == LayerPrefix(p, platforms)
    {
      match p {
        case FABRIC =>
          layered := Add(layered, FABRIC);
          layered := AddIf(layered, platforms, SPONGE, SPONGE);
          layered := AddIf(layered, platforms, FORGE, FORGE);
          layered := AddIf(layered, platforms, PAPER, PAPER);
          layered := Add(layered, VANILLA);
          layered := AddIf(layered, platforms, BUKKIT, BUKKIT);
        case FORGE =>
          layered := Add(layered, FORGE);
          layered := AddIf(layered, platforms, SPONGE, SPONGE);
          layered := AddIf(layered, platforms, FABRIC, FABRIC);
          layered := AddIf(layered, platforms, PAPER, PAPER);
          layered := Add(layered, VANILLA);
          layered := AddIf(layered, platforms, BUKKIT, BUKKIT);
        case NEOFORGE =>
          layered := Add(layered, NEOFORGE);
          layered := AddIf(layered, platforms, SPONGE, SPONGE);
          layered := AddIf(layered, platforms, FABRIC, FABRIC);
          layered := AddIf(layered, platforms, PAPER, PAPER);
          layered := Add(layered, VANILLA);
          layered := AddIf(layered, platforms, BUKKIT, BUKKIT);
        case SPONGE =>
          layered := Add(layered, SPONGE);
          layered := AddIf(layered, platforms, PAPER, PAPER);
          layered := Add(layered, VANILLA);
          layered := AddIf(layered, platforms, PAPER, PAPER);
          layered := AddIf(layered, platforms, BUKKIT, BUKKIT);
        case PAPER =>
          layered := Add(layered, PAPER);
          layered := AddIf(layered, platforms, IGNITE, IGNITE);
          layered := Add(layered, VANILLA);
          layered := AddIf(layered, platforms, BUKKIT, BUKKIT);
        case BUKKIT =>
          layered := Add(layered, BUKKIT);
          layered := AddIf(layered, platforms, IGNITE, IGNITE);
          layered := Add(layered, VANILLA);
        case BUNGEECORD =>
          layered := Add(layered, BUNGEECORD);
          layered := AddIf(layered, platforms, IGNITE, IGNITE);
        case VELOCITY =>
          layered := Add(layered, VELOCITY);
          layered := AddIf(layered, platforms, IGNITE, IGNITE);
        case _ =>
      }
    }

    /** `layered.addAll(platforms)`, in the set's (unspecified) iteration order. */
    method AddAll()
      modifies this`layered
      requires Valid()
      ensures Valid()
      ensures old(layered) <= layered
      ensures forall x :: x in layered <==> x in old(layered) || x in platforms
    {
      var rest := platforms;
      while rest != {}
        invariant rest <= platforms
        invariant Valid()
        invariant old(layered) <= layered
        invariant forall x :: x in layered <==> x in old(layered) || x in platforms - rest
        decreases rest
      {
        var p :| p in rest;
        AddMeaning(layered, p);
        layered := Add(layered, p);
        rest := rest - {p};
      }
    }

    /**
     * `get()`: detects (forced) only when nothing was detected yet, layers
     * only when the layering is empty, and returns the layering.
     */
    method Get() returns (r: Except<seq<Platform>>)
      requires Valid()
      modifies this`platforms, this`layered
      ensures Valid()
      ensures old(platforms) != {} ==> platforms == old(platforms)
      ensures old(platforms) == {} ==> platforms == Detected(detect, true)
      ensures old(layered) != [] ==> r == Ok(old(layered)) && layered == old(layered)
      ensures r.Ok? ==> r.value == layered
      ensures r.Throw? <==> old(layered) == [] && DetectPrimary(platforms, bridges).Throw?
      ensures old(layered) == [] && r.Ok? ==>
                var prefix := LayerPrefix(DetectPrimary(platforms, bridges).value, platforms);
                prefix <= layered && forall x :: x in layered <==> x in prefix || x in platforms
    {
      if platforms == {} {
        DetectPlatforms(true);
      }
      if layered == [] {
        var done := LayerPlatforms();
        if done.Throw? {
          return Throw(done.error);
        }
      }
      return Ok(layered);
    }
  }

  /** One step of a chain: branch `i` fires if detected, otherwise the rest decides. */
  lemma Unfold(detect: Probe, force: bool, chain: seq<Rule>, i: nat)
    requires i < |chain|
    ensures FirstFrom(detect, force, chain, i) ==
              if detect(chain[i].probe, force) then chain[i].adds
              else FirstFrom(detect, force, chain, i + 1)
  {
  }

  /** The Forge chain, written out branch by branch. */
  lemma ForgeChainMatches(detect: Probe, force: bool)
    ensures FirstMatch(detect, force, FORGE_CHAIN) ==
      if detect(GOLDENFORGE, force) then {GOLDENFORGE, FORGE}
      else if detect(MCPCPLUSPLUS, force) then {MCPCPLUSPLUS, FORGE}
      else if detect(CAULDRON, force) then {CAULDRON, FORGE}
      else if detect(KCAULDRON, force) then {KCAULDRON, FORGE}
      else if detect(THERMOS, force) then {THERMOS, FORGE}
      else if detect(CRUCIBLE, force) then {CRUCIBLE, FORGE}
      else if detect(MOHIST, force) then {MOHIST, FORGE}
      else if detect(CATSERVER, force) then {CATSERVER, FORGE}
      else if detect(KETTING, force) then {KETTING, FORGE}
      else if detect(FORGE, force) then {FORGE}
      else {}
  {
    var c := FORGE_CHAIN;
    assert FirstFrom(detect, force, c, 10) == {};
    Unfold(detect, force, c, 9);
    Unfold(detect, force, c, 8);
    Unfold(detect, force, c, 7);
    Unfold(detect, force, c, 6);
    Unfold(detect, force, c, 5);
    Unfold(detect, force, c, 4);
    Unfold(detect, force, c, 3);
    Unfold(detect, force, c, 2);
    Unfold(detect, force, c, 1);
    Unfold(detect, force, c, 0);
  }

  /** The NeoForge, Fabric, BungeeCord and hybrid chains, written out. */
  lemma ShortChainsMatch(detect: Probe, force: bool)
    ensures FirstMatch(detect, force, NEOFORGE_CHAIN) ==
      if detect(YOUER, force) then {YOUER, NEOFORGE}
      else if detect(NEOFORGE, force) then {NEOFORGE} else {}
    ensures FirstMatch(detect, force, FABRIC_CHAIN) ==
      if detect(QUILT, force) then {QUILT, FABRIC}
      else if detect(CARDBOARD, force) then {CARDBOARD, FABRIC}
      else if detect(BANNER, force) then {BANNER, FABRIC}
      else if detect(FABRIC, force) then {FABRIC} else {}
    ensures FirstMatch(detect, force, BUNGEECORD_CHAIN) ==
      if detect(TRAVERTINE, force) then {TRAVERTINE, WATERFALL, BUNGEECORD}
      else if detect(LIGHTFALL, force) then {LIGHTFALL, WATERFALL, BUNGEECORD}
      else if detect(WATERFALL, force) then {WATERFALL, BUNGEECORD}
      else if detect(BUNGEECORD, force) then {BUNGEECORD} else {}
    ensures FirstMatch(detect, force, HYBRID_CHAIN) ==
      if detect(ARCLIGHT, force) then {ARCLIGHT}
      else if detect(MAGMA, force) then {MAGMA} else {}
  {
    assert FirstFrom(detect, force, NEOFORGE_CHAIN, 2) == {};
    Unfold(detect, force, NEOFORGE_CHAIN, 1);
    Unfold(detect, force, NEOFORGE_CHAIN, 0);
    assert FirstFrom(detect, force, FABRIC_CHAIN, 4) == {};
    Unfold(detect, force, FABRIC_CHAIN, 3);
    Unfold(detect, force, FABRIC_CHAIN, 2);
    Unfold(detect, force, FABRIC_CHAIN, 1);
    Unfold(detect, force, FABRIC_CHAIN, 0);
    assert FirstFrom(detect, force, BUNGEECORD_CHAIN, 4) == {};
    Unfold(detect, force, BUNGEECORD_CHAIN, 3);
    Unfold(detect, force, BUNGEECORD_CHAIN, 2);
    Unfold(detect, force, BUNGEECORD_CHAIN, 1);
    Unfold(detect, force, BUNGEECORD_CHAIN, 0);
    assert FirstFrom(detect, force, HYBRID_CHAIN, 2) == {};
    Unfold(detect, force, HYBRID_CHAIN, 1);
    Unfold(detect, force, HYBRID_CHAIN, 0);
  }

  /** The Bukkit chain, written out. */
  lemma BukkitChainMatches(detect: Probe, force: bool)
    ensures FirstMatch(detect, force, BUKKIT_CHAIN) ==
      if detect(PURPUR, force) then {PURPUR, PUFFERFISH, PAPER, SPIGOT, BUKKIT}
      else if detect(PUFFERFISH, force) then {PUFFERFISH, PAPER, SPIGOT, BUKKIT}
      else if detect(PAPER, force) then {PAPER, SPIGOT, BUKKIT}
      else if detect(SPIGOT, force) then {SPIGOT, BUKKIT}
      else if detect(POSEIDON, force) then {POSEIDON, BUKKIT}
      else if detect(BUKKIT, force) then {BUKKIT} else {}
  {
    var c := BUKKIT_CHAIN;
    assert FirstFrom(detect, force, c, 6) == {};
    Unfold(detect, force, c, 5);
    Unfold(detect, force, c, 4);
    Unfold(detect, force, c, 3);
    Unfold(detect, force, c, 2);
    Unfold(detect, force, c, 1);
    Unfold(detect, force, c, 0);
  }
}
