/** Where the terrain seed comes from. Four components share three static
    values: the seed manager's `CurrentSeed` and the network terrain
    manager's `CustomSeed` and `TerrainSeedValue`; they are one shared
    `SeedStatics` object here. Each map generator keeps its own
    `currentSeedValue` and the seed of its noise settings; a direct injector
    periodically pushes the resolved seed into every generator. Random draws
    are parameters; scene lookups are parameters or sequences of objects. */
module Seeds {
  import opened Common

  /** The seed used whenever a seed is missing or invalid. */
  const DefaultSeed := 12345

  /** The exclusive upper bound of every random seed draw. */
  const SeedRangeEnd := 100000

  /** The seed priority shared by `GetCurrentSeedValue`, `TryGetLobbySeed`
      and the generator's own update: a positive `CurrentSeed`, else a
      positive `TerrainSeedValue`, else -1 for none. */
  function ResolveSeed(currentSeed: int, terrainSeedValue: int): (r: int)
    ensures r > 0 || r == -1
    ensures r == -1 <==> currentSeed <= 0 && terrainSeedValue <= 0
    ensures currentSeed > 0 ==> r == currentSeed
    ensures currentSeed <= 0 && terrainSeedValue > 0 ==> r == terrainSeedValue
  {
    if currentSeed > 0 then currentSeed
    else if terrainSeedValue > 0 then terrainSeedValue
    else -1
  }

  /** The seed `SetCustomSeed` stores: invalid seeds become the default. */
  function SanitizeSeed(seed: int): (r: int)
    ensures r > 0
    ensures seed > 0 ==> r == seed
    ensures seed <= 0 ==> r == DefaultSeed
  {
    if seed <= 0 then DefaultSeed else seed
  }

  /** The seed the seed label shows, if any: the network seed when
      positive, else `CurrentSeed`, and nothing unless that is positive. */
  function DisplaySeed(terrainSeedValue: int, currentSeed: int): (r: Option<int>)
    ensures r.Some? ==> r.value > 0
    ensures r.Some? <==> terrainSeedValue > 0 || currentSeed > 0
    ensures r.Some? ==> r.value == ResolveSeed(terrainSeedValue, currentSeed)
  {
    var shown := if terrainSeedValue > 0 then terrainSeedValue else currentSeed;
    if shown > 0 then Some(shown) else None
  }

  /** `mapChunkSize`: 95 with flat shading, 239 otherwise. */
  function MapChunkSize(useFlatShading: bool): (n: int)
    ensures n == 95 <==> useFlatShading
    ensures n == 239 <==> !useFlatShading
  {
    if useFlatShading then 95 else 239
  }

  /** The seed the worker-thread overload of `GenerateMapData` uses: the
      thread's seed, or the generator's current seed when that is not
      positive, or the default when neither is. */
  function ThreadSeed(threadSeedValue: int, currentSeedValue: int): (r: int)
    ensures r > 0
    ensures threadSeedValue > 0 ==> r == threadSeedValue
    ensures threadSeedValue <= 0 && currentSeedValue > 0 ==> r == currentSeedValue
    ensures r == threadSeedValue || r == currentSeedValue || r == DefaultSeed
  {
    if threadSeedValue > 0 then threadSeedValue
    else if currentSeedValue > 0 then currentSeedValue
    else DefaultSeed
  }

  // ---------------------------------------------------------------------
  // The lobby seed draw

  /** `GenerateSeedForNewLobby` as written: a positive `CustomSeed`, else a
      draw from `Random.Range(0, 100000)`, whose range includes 0. */
  function LobbySeedAsWritten(customSeed: int, draw: int): (r: int)
    requires 0 <= draw < SeedRangeEnd
    ensures 0 <= r
    ensures customSeed > 0 ==> r == customSeed
    ensures customSeed <= 0 ==> r == draw
  {
    if customSeed > 0 then customSeed else draw
  }

  /** Without a custom seed, a draw of 0 gives the lobby a seed that every
      consumer of lobby seeds rejects. */
  lemma LobbySeedCanBeRejected()
    ensures LobbySeedAsWritten(-1, 0) == 0
    ensures var s := LobbySeedAsWritten(-1, 0); ResolveSeed(s, s) == -1
  {
  }

  /** `GenerateSeedForNewLobby` drawing from `[1, 100000)` as the other two
      draws do: the lobby seed is always valid. */
  function LobbySeed(customSeed: int, draw: int): (r: int)
    requires 1 <= draw < SeedRangeEnd
    ensures r > 0
    ensures customSeed > 0 ==> r == customSeed
    ensures customSeed <= 0 ==> r < SeedRangeEnd
  {
    if customSeed > 0 then customSeed else draw
  }

  // ---------------------------------------------------------------------
  // The shared statics

  class SeedStatics {
    /** `TerrainSeedManager.CurrentSeed`. */
    var currentSeed: int
    /** `NetworkTerrainManager.CustomSeed`. */
    var customSeed: int
    /** `NetworkTerrainManager.TerrainSeedValue`. */
    var terrainSeedValue: int
    /** The seed manager singleton's id, once one has awoken. */
    var seedManagerInstance: Option<nat>

    /** All three start at -1. */
    constructor ()
      ensures currentSeed == -1 && customSeed == -1 && terrainSeedValue == -1
      ensures seedManagerInstance == None
      ensures Valid()
    {
      currentSeed := -1;
      customSeed := -1;
      terrainSeedValue := -1;
      seedManagerInstance := None;
    }

    /** `CustomSeed` is -1 until first set, and positive from then on. */
    predicate Valid()
      reads this
    {
      customSeed == -1 || customSeed > 0
    }

    /** The three seeds agree on one valid seed. */
    predicate AgreeOn(seed: int)
      reads this
    {
      seed > 0 && currentSeed == seed && customSeed == seed && terrainSeedValue == seed
    }

    /** `NetworkTerrainManager.SetCustomSeed(seed)`. */
    method SetCustomSeed(seed: int)
      modifies this
      ensures customSeed == SanitizeSeed(seed) && terrainSeedValue == SanitizeSeed(seed)
      ensures currentSeed == old(currentSeed) && seedManagerInstance == old(seedManagerInstance)
      ensures Valid()
    {
      var s := seed;
      if s <= 0 {
        s := DefaultSeed;
      }
      customSeed := s;
      terrainSeedValue := s;
    }

    /** `TerrainSeedManager.UpdateSeedFromLobby(lobbySeed)`: an invalid seed
        changes nothing; a valid one becomes every seed. */
    method UpdateSeedFromLobby(lobbySeed: int)
      modifies this
      ensures lobbySeed <= 0 ==> unchanged(this)
      ensures lobbySeed > 0 ==> AgreeOn(lobbySeed)
      ensures seedManagerInstance == old(seedManagerInstance)
      ensures old(Valid()) ==> Valid()
    {
      if lobbySeed <= 0 {
        return;
      }
      currentSeed := lobbySeed;
      SetCustomSeed(lobbySeed);
    }
  }

  // ---------------------------------------------------------------------
  // The map generator's seed handling

  class MapGenerator {
    const statics: SeedStatics
    const useFlatShading: bool
    /** Whether `noiseData` is assigned. */
    const hasNoiseData: bool
    /** `noiseData.seed` (meaningless without `noiseData`). */
    var noiseSeed: int
    var currentSeedValue: int
    var seedInitialized: bool
    var isGenerationComplete: bool
    /** Times `OnTerrainGenerationComplete` was raised by this generator. */
    var completionEvents: nat

    constructor (statics: SeedStatics, useFlatShading: bool, hasNoiseData: bool, noiseSeed: int)
      ensures this.statics == statics && this.useFlatShading == useFlatShading
      ensures this.hasNoiseData == hasNoiseData && this.noiseSeed == noiseSeed
      ensures currentSeedValue == DefaultSeed && !seedInitialized
      ensures !isGenerationComplete && completionEvents == 0
      ensures Valid()
    {
      this.statics := statics;
      this.useFlatShading := useFlatShading;
      this.hasNoiseData := hasNoiseData;
      this.noiseSeed := noiseSeed;
      currentSeedValue := DefaultSeed;
      seedInitialized := false;
      isGenerationComplete := false;
      completionEvents := 0;
    }

    /** The current seed is always valid, and the completion event has been
        raised exactly once when generation is complete. */
    predicate Valid()
      reads this
    {
      currentSeedValue > 0 && completionEvents == (if isGenerationComplete then 1 else 0)
    }

    /** `UpdateCurrentSeedFromNetworkManager()`: a resolved network seed
        always wins; the noise settings' own seed is taken only before any
        seed was initialized; after the update the seed is initialized and
        the noise settings carry the current seed. */
    method UpdateCurrentSeedFromNetworkManager()
      modifies this
      ensures var direct := ResolveSeed(statics.currentSeed, statics.terrainSeedValue);
        currentSeedValue == if direct > 0 then direct
                            else if hasNoiseData && old(noiseSeed) > 0 && !old(seedInitialized) then old(noiseSeed)
                            else old(currentSeedValue)
      ensures seedInitialized
      ensures hasNoiseData && currentSeedValue > 0 ==> noiseSeed == currentSeedValue
      ensures !hasNoiseData ==> noiseSeed == old(noiseSeed)
      ensures isGenerationComplete == old(isGenerationComplete) && completionEvents == old(completionEvents)
      ensures old(Valid()) ==> Valid()
    {
      var directNetworkSeed := -1;
      if statics.currentSeed > 0 {
        directNetworkSeed := statics.currentSeed;
      } else if statics.terrainSeedValue > 0 {
        directNetworkSeed := statics.terrainSeedValue;
      }
      var noiseDataSeed := -1;
      if hasNoiseData && noiseSeed > 0 {
        noiseDataSeed := noiseSeed;
      }
      if directNetworkSeed > 0 {
        currentSeedValue := directNetworkSeed;
        seedInitialized := true;
      } else if noiseDataSeed > 0 && !seedInitialized {
        currentSeedValue := noiseDataSeed;
        seedInitialized := true;
      } else if !seedInitialized {
        seedInitialized := true;
      }
      if hasNoiseData && currentSeedValue > 0 {
        noiseSeed := currentSeedValue;
      }
    }

    /** The seed the main-thread `GenerateMapData(centre)` feeds the noise:
        it first updates the current seed, and the result is always valid. */
    method GenerateMapData() returns (seedToUse: int)
      modifies this
      ensures seedToUse > 0
      ensures old(Valid()) ==> seedToUse == currentSeedValue && Valid()
      ensures var direct := ResolveSeed(statics.currentSeed, statics.terrainSeedValue);
        direct > 0 ==> seedToUse == direct && currentSeedValue == direct && (hasNoiseData ==> noiseSeed == direct)
      ensures seedInitialized
      ensures isGenerationComplete == old(isGenerationComplete) && completionEvents == old(completionEvents)
    {
      UpdateCurrentSeedFromNetworkManager();
      seedToUse := currentSeedValue;
      if seedToUse <= 0 {
        seedToUse := DefaultSeed;
      }
    }

    /** `InitializeMapSeed()`: the update, then the noise settings get the
        current seed again, but only when both a seed manager and a network
        terrain manager exist in the scene (the two `if`s without a body
        nest the assignment under them). */
    method InitializeMapSeed(seedManagerFound: bool, networkManagerFound: bool)
      modifies this
      ensures var direct := ResolveSeed(statics.currentSeed, statics.terrainSeedValue);
        direct > 0 ==> currentSeedValue == direct && (hasNoiseData ==> noiseSeed == direct)
      ensures seedInitialized
      ensures hasNoiseData && (currentSeedValue > 0 || (seedManagerFound && networkManagerFound)) ==>
        noiseSeed == currentSeedValue
      ensures isGenerationComplete == old(isGenerationComplete) && completionEvents == old(completionEvents)
      ensures old(Valid()) ==> Valid()
    {
      UpdateCurrentSeedFromNetworkManager();
      if seedManagerFound {
        if networkManagerFound {
          if hasNoiseData {
            noiseSeed := currentSeedValue;
          }
        }
      }
    }

    /** `NotifyAllChunksCreated()`: completion is marked and announced the
        first time only. */
    method NotifyAllChunksCreated()
      modifies this
      ensures isGenerationComplete
      ensures completionEvents == old(completionEvents) + if old(isGenerationComplete) then 0 else 1
      ensures noiseSeed == old(noiseSeed) && currentSeedValue == old(currentSeedValue)
      ensures seedInitialized == old(seedInitialized)
      ensures old(Valid()) ==> Valid()
    {
      if !isGenerationComplete {
        isGenerationComplete := true;
        completionEvents := completionEvents + 1;
      }
    }
  }

  /** The generators a scene search returns, destroyed ones being null. */
  function Live(gens: seq<MapGenerator?>): set<MapGenerator>
  {
    set g: MapGenerator | g in gens
  }

  /** The loop of `SetSeedFromLobby` over the generators found: each takes
      `seed` as its current seed and, with noise settings, as its noise
      seed; nothing else of them changes. */
  method SetGeneratorSeeds(gens: seq<MapGenerator?>, seed: int)
    requires seed > 0
    modifies Live(gens)
    ensures forall g :: g in Live(gens) ==>
      g.currentSeedValue == seed && (g.hasNoiseData ==> g.noiseSeed == seed)
    ensures forall g :: g in Live(gens) ==>
      g.seedInitialized == old(g.seedInitialized) && g.isGenerationComplete == old(g.isGenerationComplete)
      && g.completionEvents == old(g.completionEvents)
    ensures forall g :: g in Live(gens) && old(g.Valid()) ==> g.Valid()
  {
    var i := 0;
    while i < |gens|
      invariant 0 <= i <= |gens|
      invariant forall j :: 0 <= j < i && gens[j] != null ==>
        gens[j].currentSeedValue == seed && (gens[j].hasNoiseData ==> gens[j].noiseSeed == seed)
      invariant forall g :: g in Live(gens) ==>
        g.seedInitialized == old(g.seedInitialized) && g.isGenerationComplete == old(g.isGenerationComplete)
        && g.completionEvents == old(g.completionEvents)
    {
      var mapGen := gens[i];
      if mapGen != null {
        mapGen.currentSeedValue := seed;
        if mapGen.hasNoiseData {
          mapGen.noiseSeed := seed;
        }
      }
      i := i + 1;
    }
    assert forall g :: g in Live(gens) ==> exists j :: 0 <= j < |gens| && gens[j] == g;
  }

  // ---------------------------------------------------------------------
  // The seed manager

  class TerrainSeedManager {
    const id: nat
    const statics: SeedStatics
    const showSeedInGame: bool
    /** Serialized `customSeed` (-1 by default) and `useCustomSeed`. */
    var customSeed: int
    var useCustomSeed: bool
    /** Whether `Awake` destroyed this object as a second singleton. */
    var destroyed: bool

    constructor (id: nat, statics: SeedStatics, customSeed: int, useCustomSeed: bool, showSeedInGame: bool)
      ensures this.id == id && this.statics == statics && this.showSeedInGame == showSeedInGame
      ensures this.customSeed == customSeed && this.useCustomSeed == useCustomSeed && !destroyed
    {
      this.id := id;
      this.statics := statics;
      this.showSeedInGame := showSeedInGame;
      this.customSeed := customSeed;
      this.useCustomSeed := useCustomSeed;
      destroyed := false;
    }

    /** `Awake()`: a second instance destroys itself; the singleton uses the
        serialized seed only when enabled and valid, and otherwise `draw`,
        the result of `Random.Range(1, 100000)`. Either way every shared
        seed agrees on the choice. */
    method Awake(draw: int)
      requires 1 <= draw < SeedRangeEnd
      modifies this, statics
      ensures old(statics.seedManagerInstance).Some? && old(statics.seedManagerInstance) != Some(id) ==>
        destroyed && unchanged(statics)
      ensures !(old(statics.seedManagerInstance).Some? && old(statics.seedManagerInstance) != Some(id)) ==>
        && destroyed == old(destroyed) && statics.seedManagerInstance == Some(id)
        && statics.AgreeOn(if useCustomSeed && customSeed > 0 then customSeed else draw)
      ensures customSeed == old(customSeed) && useCustomSeed == old(useCustomSeed)
      ensures old(statics.Valid()) ==> statics.Valid()
    {
      if statics.seedManagerInstance.Some? && statics.seedManagerInstance != Some(id) {
        destroyed := true;
        return;
      }
      statics.seedManagerInstance := Some(id);
      if useCustomSeed && customSeed > 0 {
        statics.SetCustomSeed(customSeed);
        statics.currentSeed := customSeed;
      } else {
        statics.SetCustomSeed(draw);
        statics.currentSeed := draw;
      }
    }

    /** `OnGUI()`: the seed label drawn, if any. */
    method OnGUI() returns (shown: Option<int>)
      ensures !showSeedInGame ==> shown == None
      ensures showSeedInGame ==> shown == DisplaySeed(statics.terrainSeedValue, statics.currentSeed)
      ensures shown.Some? ==> shown.value > 0
    {
      if !showSeedInGame {
        return None;
      }
      var displaySeed := if statics.terrainSeedValue > 0 then statics.terrainSeedValue else statics.currentSeed;
      if displaySeed > 0 {
        return Some(displaySeed);
      }
      return None;
    }

    /** `SetSeed(newSeed)`: stored as given, even when invalid, while the
        network manager's copies fall back to the default. */
    method SetSeed(newSeed: int)
      modifies this, statics
      ensures customSeed == newSeed && useCustomSeed
      ensures statics.currentSeed == newSeed
      ensures statics.customSeed == SanitizeSeed(newSeed) && statics.terrainSeedValue == SanitizeSeed(newSeed)
      ensures statics.seedManagerInstance == old(statics.seedManagerInstance) && destroyed == old(destroyed)
      ensures statics.Valid()
    {
      customSeed := newSeed;
      useCustomSeed := true;
      statics.SetCustomSeed(newSeed);
      statics.currentSeed := newSeed;
    }

    /** `UseRandomSeed()` with `draw` from `Random.Range(1, 100000)`. */
    method UseRandomSeed(draw: int)
      requires 1 <= draw < SeedRangeEnd
      modifies this, statics
      ensures !useCustomSeed && customSeed == old(customSeed)
      ensures statics.AgreeOn(draw)
      ensures statics.seedManagerInstance == old(statics.seedManagerInstance) && destroyed == old(destroyed)
      ensures statics.Valid()
    {
      useCustomSeed := false;
      statics.SetCustomSeed(draw);
      statics.currentSeed := draw;
    }
  }

  /** An invalid seed typed into the seed field leaves the shared seeds in
      disagreement, and every reader then resolves to the default. */
  lemma InvalidSetSeedResolvesToDefault(newSeed: int, currentSeed: int, customSeed: int, terrainSeedValue: int)
    requires newSeed <= 0
    requires currentSeed == newSeed && customSeed == SanitizeSeed(newSeed) && terrainSeedValue == SanitizeSeed(newSeed)
    ensures currentSeed != customSeed
    ensures ResolveSeed(currentSeed, terrainSeedValue) == DefaultSeed
  {
  }

  // ---------------------------------------------------------------------
  // The network terrain manager

  class NetworkTerrainManager {
    const isServer: bool
    const statics: SeedStatics
    /** The networked `TerrainSeed` value, 0 until written. */
    var terrainSeed: int
    var isNetworkSeedReady: bool
    /** Whether `OnSeedChanged` is subscribed to `TerrainSeed`. */
    var subscribed: bool
    /** The generator found by `WaitForMapGenerator`, if any. */
    var mapGenerator: MapGenerator?
    /** Started `WaitForMapGenerator` searches not yet resumed. */
    var pendingSearches: nat

    constructor (isServer: bool, statics: SeedStatics)
      ensures this.isServer == isServer && this.statics == statics
      ensures terrainSeed == 0 && !isNetworkSeedReady && !subscribed && mapGenerator == null && pendingSearches == 0
    {
      this.isServer := isServer;
      this.statics := statics;
      terrainSeed := 0;
      isNetworkSeedReady := false;
      subscribed := false;
      mapGenerator := null;
      pendingSearches := 0;
    }

    /** `OnNetworkSpawn()`: the server picks the custom seed when valid and
        otherwise `draw` (from `Random.Range(1, 100000)`), publishes it and
        makes every shared seed agree on it; a client adopts the networked
        value, which the lobby update ignores unless positive. Both start
        looking for the map generator and subscribe to seed changes. */
    method OnNetworkSpawn(draw: int)
      requires 1 <= draw < SeedRangeEnd
      modifies this, statics
      ensures isServer ==>
        var newSeed := if old(statics.customSeed) > 0 then old(statics.customSeed) else draw;
        terrainSeed == newSeed && statics.AgreeOn(newSeed)
      ensures !isServer ==> terrainSeed == old(terrainSeed) && statics.terrainSeedValue == terrainSeed
      ensures !isServer && terrainSeed > 0 ==> statics.AgreeOn(terrainSeed)
      ensures !isServer && terrainSeed <= 0 ==>
        statics.currentSeed == old(statics.currentSeed) && statics.customSeed == old(statics.customSeed)
      ensures subscribed && pendingSearches == old(pendingSearches) + 1
      ensures mapGenerator == old(mapGenerator) && isNetworkSeedReady == old(isNetworkSeedReady)
      ensures statics.seedManagerInstance == old(statics.seedManagerInstance)
      ensures old(statics.Valid()) ==> statics.Valid()
    {
      if isServer {
        var newSeed;
        if statics.customSeed > 0 {
          newSeed := statics.customSeed;
        } else {
          newSeed := draw;
        }
        terrainSeed := newSeed;
        statics.terrainSeedValue := newSeed;
        statics.UpdateSeedFromLobby(newSeed);
        pendingSearches := pendingSearches + 1;
      } else {
        statics.terrainSeedValue := terrainSeed;
        statics.UpdateSeedFromLobby(statics.terrainSeedValue);
        pendingSearches := pendingSearches + 1;
      }
      subscribed := true;
    }

    /** `OnNetworkDespawn()`. */
    method OnNetworkDespawn()
      modifies this
      ensures !subscribed
      ensures terrainSeed == old(terrainSeed) && isNetworkSeedReady == old(isNetworkSeedReady)
      ensures mapGenerator == old(mapGenerator) && pendingSearches == old(pendingSearches)
    {
      subscribed := false;
    }

    /** `WaitForMapGenerator` finds `found`: on the server, a generator with
        noise settings gets the networked seed and the seed is ready. */
    method ResumeWaitForMapGenerator(found: MapGenerator)
      requires pendingSearches > 0
      modifies this, found
      ensures pendingSearches == old(pendingSearches) - 1 && mapGenerator == found
      ensures isServer && found.hasNoiseData ==> found.noiseSeed == terrainSeed && isNetworkSeedReady
      ensures !(isServer && found.hasNoiseData) ==>
        found.noiseSeed == old(found.noiseSeed) && isNetworkSeedReady == old(isNetworkSeedReady)
      ensures found.currentSeedValue == old(found.currentSeedValue) && found.seedInitialized == old(found.seedInitialized)
      ensures found.isGenerationComplete == old(found.isGenerationComplete)
      ensures found.completionEvents == old(found.completionEvents)
      ensures terrainSeed == old(terrainSeed) && subscribed == old(subscribed)
    {
      pendingSearches := pendingSearches - 1;
      mapGenerator := found;
      if isServer && found.hasNoiseData {
        found.noiseSeed := terrainSeed;
        isNetworkSeedReady := true;
      }
    }

    /** `SetSeedFromLobby(lobbySeed)`: an invalid seed changes nothing;
        otherwise it becomes the network seed (and, on the server, the
        networked value), and every generator in `gens` gets it as its
        current seed and, with noise settings, as its noise seed. */
    method SetSeedFromLobby(lobbySeed: int, gens: seq<MapGenerator?>)
      modifies this, statics, Live(gens)
      ensures lobbySeed <= 0 ==> unchanged(this) && unchanged(statics) && unchanged(Live(gens))
      ensures lobbySeed > 0 ==>
        && statics.terrainSeedValue == lobbySeed
        && (isServer ==> terrainSeed == lobbySeed)
        && (!isServer ==> terrainSeed == old(terrainSeed))
        && forall g :: g in Live(gens) ==>
             g.currentSeedValue == lobbySeed && (g.hasNoiseData ==> g.noiseSeed == lobbySeed)
      ensures statics.currentSeed == old(statics.currentSeed) && statics.customSeed == old(statics.customSeed)
      ensures statics.seedManagerInstance == old(statics.seedManagerInstance)
      ensures forall g :: g in Live(gens) ==>
        g.seedInitialized == old(g.seedInitialized) && g.isGenerationComplete == old(g.isGenerationComplete)
        && g.completionEvents == old(g.completionEvents)
      ensures forall g :: g in Live(gens) && old(g.Valid()) ==> g.Valid()
      ensures isNetworkSeedReady == old(isNetworkSeedReady) && subscribed == old(subscribed)
      ensures mapGenerator == old(mapGenerator) && pendingSearches == old(pendingSearches)
    {
      if lobbySeed <= 0 {
        return;
      }
      statics.terrainSeedValue := lobbySeed;
      if isServer {
        terrainSeed := lobbySeed;
      }
      SetGeneratorSeeds(gens, lobbySeed);
    }

    /** `OnSeedChanged(previousValue, newValue)`: the new networked value
        becomes the network seed; a found generator with noise settings takes
        it, redraws (which updates its current seed first) and the seed is
        ready. */
    method OnSeedChanged(previousValue: int, newValue: int)
      requires mapGenerator != null ==> mapGenerator.statics == statics
      modifies this, statics, mapGenerator
      ensures statics.terrainSeedValue == newValue
      ensures statics.currentSeed == old(statics.currentSeed) && statics.customSeed == old(statics.customSeed)
      ensures mapGenerator != null && mapGenerator.hasNoiseData ==>
        isNetworkSeedReady && mapGenerator.seedInitialized
        && (ResolveSeed(statics.currentSeed, newValue) > 0 ==>
              mapGenerator.currentSeedValue == ResolveSeed(statics.currentSeed, newValue)
              && mapGenerator.noiseSeed == mapGenerator.currentSeedValue)
      ensures !(mapGenerator != null && mapGenerator.hasNoiseData) ==>
        isNetworkSeedReady == old(isNetworkSeedReady) && (old(mapGenerator) != null ==> unchanged(old(mapGenerator)))
      ensures old(mapGenerator) != null && old(mapGenerator.Valid()) ==> old(mapGenerator).Valid()
      ensures mapGenerator == old(mapGenerator) && terrainSeed == old(terrainSeed)
      ensures subscribed == old(subscribed) && pendingSearches == old(pendingSearches)
    {
      statics.terrainSeedValue := newValue;
      if mapGenerator != null && mapGenerator.hasNoiseData {
        mapGenerator.noiseSeed := newValue;
        var _ := mapGenerator.GenerateMapData();
        isNetworkSeedReady := true;
      }
    }
  }

  // ---------------------------------------------------------------------
  // The direct injector

  class SeedDirectInjector {
    const statics: SeedStatics
    const checkInterval: real
    var lastCheckTime: real

    /** The serialized interval is half a second. */
    constructor (statics: SeedStatics, checkInterval: real)
      ensures this.statics == statics && this.checkInterval == checkInterval && lastCheckTime == 0.0
    {
      this.statics := statics;
      this.checkInterval := checkInterval;
      lastCheckTime := 0.0;
    }

    /** `GetCurrentSeedValue()`. */
    method GetCurrentSeedValue() returns (seed: int)
      ensures seed == ResolveSeed(statics.currentSeed, statics.terrainSeedValue)
    {
      if statics.currentSeed > 0 {
        return statics.currentSeed;
      }
      if statics.terrainSeedValue > 0 {
        return statics.terrainSeedValue;
      }
      return -1;
    }

    /** `ApplySeedToAllMapGenerators()` over the generators the scene search
        returns: with no valid seed nothing changes; otherwise every
        generator with noise settings ends with that seed as both its noise
        seed and its current seed. `seedManagerFound` and
        `networkManagerFound` are what each `InitializeMapSeed` finds. */
    method ApplySeedToAllMapGenerators(gens: seq<MapGenerator?>, seedManagerFound: bool, networkManagerFound: bool)
      requires forall g :: g in Live(gens) ==> g.statics == statics
      modifies Live(gens)
      ensures var seed := ResolveSeed(statics.currentSeed, statics.terrainSeedValue);
        && (seed <= 0 ==> unchanged(Live(gens)))
        && (seed > 0 ==> forall g :: g in Live(gens) && g.hasNoiseData ==>
              g.noiseSeed == seed && g.currentSeedValue == seed && g.seedInitialized)
      ensures forall g :: g in Live(gens) && !g.hasNoiseData ==> unchanged(g)
      ensures forall g :: g in Live(gens) && old(g.Valid()) ==> g.Valid()
    {
      var seedValue := GetCurrentSeedValue();
      if seedValue > 0 {
        var i := 0;
        while i < |gens|
          invariant 0 <= i <= |gens|
          invariant forall j :: 0 <= j < i && gens[j] != null && gens[j].hasNoiseData ==>
            gens[j].noiseSeed == seedValue && gens[j].currentSeedValue == seedValue && gens[j].seedInitialized
          invariant forall g :: g in Live(gens) && g !in gens[..i] ==> unchanged(g)
          invariant forall g :: g in Live(gens) && !g.hasNoiseData ==> unchanged(g)
          invariant forall g :: g in Live(gens) && old(g.Valid()) ==> g.Valid()
        {
          var mapGen := gens[i];
          if mapGen != null && mapGen.hasNoiseData {
            mapGen.noiseSeed := seedValue;
            mapGen.InitializeMapSeed(seedManagerFound, networkManagerFound);
          }
          i := i + 1;
        }
        assert forall g :: g in Live(gens) ==> exists j :: 0 <= j < |gens| && gens[j] == g;
      }
    }

    /** `Start()`: one application at once. */
    method Start(gens: seq<MapGenerator?>, seedManagerFound: bool, networkManagerFound: bool)
      requires forall g :: g in Live(gens) ==> g.statics == statics
      modifies Live(gens)
      ensures var seed := ResolveSeed(statics.currentSeed, statics.terrainSeedValue);
        seed > 0 ==> forall g :: g in Live(gens) && g.hasNoiseData ==> g.noiseSeed == seed && g.currentSeedValue == seed
      ensures forall g :: g in Live(gens) && old(g.Valid()) ==> g.Valid()
    {
      ApplySeedToAllMapGenerators(gens, seedManagerFound, networkManagerFound);
    }

    /** `Update()` at `Time.time == time`: re-applies only once the interval
        has passed since the last check, and then restarts the interval. */
    method Update(time: real, gens: seq<MapGenerator?>, seedManagerFound: bool, networkManagerFound: bool)
      requires forall g :: g in Live(gens) ==> g.statics == statics
      modifies this, Live(gens)
      ensures time >= old(lastCheckTime) + checkInterval ==> lastCheckTime == time
      ensures time < old(lastCheckTime) + checkInterval ==> lastCheckTime == old(lastCheckTime) && unchanged(Live(gens))
      ensures var seed := ResolveSeed(statics.currentSeed, statics.terrainSeedValue);
        time >= old(lastCheckTime) + checkInterval && seed > 0 ==>
          forall g :: g in Live(gens) && g.hasNoiseData ==> g.noiseSeed == seed && g.currentSeedValue == seed
      ensures forall g :: g in Live(gens) && old(g.Valid()) ==> g.Valid()
    {
      if time >= lastCheckTime + checkInterval {
        ApplySeedToAllMapGenerators(gens, seedManagerFound, networkManagerFound);
        lastCheckTime := time;
      }
    }
  }
}
