/** The dynamic navigation-mesh builder: it waits for both the terrain and
    the trees to be generated, builds the mesh once and announces that it is
    ready; a timeout forces the build if the generators never finish, and a
    rebuild shortly after start builds and announces unconditionally.
    Coroutines are pending counters released by `Resume` methods; the
    reflective call into the surface component is an outcome parameter. */
module NavMesh {

  /** What happens when `BuildNavMesh` asks the surface component to build:
      it builds, it has no `BuildNavMesh` method, the call throws, or no
      surface is assigned. All but the first fall back. */
  datatype SurfaceOutcome = Built | NoBuildMethod | Threw | NoSurface

  /** Whether `BuildNavMeshIfReady(force)` builds. */
  predicate BuildsNow(terrainReady: bool, treesReady: bool, force: bool, navMeshReady: bool)
  {
    ((terrainReady && treesReady) || force) && !navMeshReady
  }

  /** The effect of one `BuildNavMeshIfReady(force)` on the ready flag. */
  function ReadyAfter(terrainReady: bool, treesReady: bool, force: bool, navMeshReady: bool): (r: bool)
    ensures r <==> navMeshReady || (terrainReady && treesReady) || force
    ensures navMeshReady ==> r
  {
    navMeshReady || BuildsNow(terrainReady, treesReady, force, navMeshReady)
  }

  /** The number of builds a sequence of `BuildNavMeshIfReady` calls makes,
      each call given by its `(terrainReady, treesReady, force)`. */
  function LatchBuilds(calls: seq<(bool, bool, bool)>, navMeshReady: bool): (r: (nat, bool))
    decreases |calls|
  {
    if calls == [] then (0, navMeshReady)
    else
      var (terrain, trees, force) := calls[0];
      var builds := if BuildsNow(terrain, trees, force, navMeshReady) then 1 else 0;
      var rest := LatchBuilds(calls[1..], ReadyAfter(terrain, trees, force, navMeshReady));
      (builds + rest.0, rest.1)
  }

  /** However the flags arrive, the ready latch builds at most once, never
      once it is already set, and builds exactly when it ends set having
      started unset. */
  lemma {:induction false} LatchBuildsAtMostOnce(calls: seq<(bool, bool, bool)>, navMeshReady: bool)
    ensures LatchBuilds(calls, navMeshReady).0 <= 1
    ensures navMeshReady ==> LatchBuilds(calls, navMeshReady) == (0, true)
    ensures LatchBuilds(calls, navMeshReady).0 == 1 <==> !navMeshReady && LatchBuilds(calls, navMeshReady).1
    decreases |calls|
  {
    if calls != [] {
      var (terrain, trees, force) := calls[0];
      LatchBuildsAtMostOnce(calls[1..], ReadyAfter(terrain, trees, force, navMeshReady));
    }
  }

  class DynamicNavMeshBuilder {
    const forceRebuildOnStart: bool
    var isNavMeshReady: bool
    var isTerrainReady: bool
    var isTreesReady: bool
    /** Whether the two generator events are subscribed to. */
    var subscribed: bool
    /** Started `ForceRebuildAfterDelay` and `ForceBuildAfterTimeout`
        coroutines that have not resumed yet. */
    var pendingRebuilds: nat
    var pendingTimeouts: nat
    /** Times `BuildNavMesh` ran, and how many of them fell back. */
    var builds: nat
    var fallbacks: nat
    /** Times `OnNavMeshReady` was raised. */
    var readyEvents: nat
    /** Of those, the ones raised by a forced rebuild. */
    var rebuildEvents: nat

    /** The serialized default rebuilds on start. */
    constructor (forceRebuildOnStart: bool)
      ensures this.forceRebuildOnStart == forceRebuildOnStart
      ensures !isNavMeshReady && !isTerrainReady && !isTreesReady && !subscribed
      ensures pendingRebuilds == 0 && pendingTimeouts == 0
      ensures builds == 0 && fallbacks == 0 && readyEvents == 0 && rebuildEvents == 0
      ensures Valid()
    {
      this.forceRebuildOnStart := forceRebuildOnStart;
      isNavMeshReady := false;
      isTerrainReady := false;
      isTreesReady := false;
      subscribed := false;
      pendingRebuilds := 0;
      pendingTimeouts := 0;
      builds := 0;
      fallbacks := 0;
      readyEvents := 0;
      rebuildEvents := 0;
    }

    /** Once both generators are done the mesh is ready; every build raised
        the event; the readiness latch itself raised it at most once, the
        rest coming from forced rebuilds; and a raised event means ready. */
    predicate Valid()
      reads this
    {
      && (isTerrainReady && isTreesReady ==> isNavMeshReady)
      && builds == readyEvents
      && rebuildEvents <= readyEvents <= rebuildEvents + 1
      && (readyEvents > 0 ==> isNavMeshReady)
      && fallbacks <= builds
    }

    /** `Start()`: with `forceRebuildOnStart`, the delayed rebuild starts. */
    method Start()
      modifies this
      ensures pendingRebuilds == old(pendingRebuilds) + if forceRebuildOnStart then 1 else 0
      ensures isNavMeshReady == old(isNavMeshReady) && isTerrainReady == old(isTerrainReady)
      ensures isTreesReady == old(isTreesReady) && subscribed == old(subscribed)
      ensures pendingTimeouts == old(pendingTimeouts) && builds == old(builds) && fallbacks == old(fallbacks)
      ensures readyEvents == old(readyEvents) && rebuildEvents == old(rebuildEvents)
      ensures old(Valid()) ==> Valid()
    {
      if forceRebuildOnStart {
        pendingRebuilds := pendingRebuilds + 1;
      }
    }

    /** `OnEnable()`: subscribes, catches up with generators that already
        finished (`terrainDone`, `treesDone` are their `IsGenerationComplete`,
        false when the object does not exist) and starts the timeout. */
    method OnEnable(terrainDone: bool, treesDone: bool, outcome: SurfaceOutcome)
      modifies this
      ensures subscribed && pendingTimeouts == old(pendingTimeouts) + 1
      ensures isTerrainReady == (old(isTerrainReady) || terrainDone)
      ensures isTreesReady == (old(isTreesReady) || treesDone)
      ensures isNavMeshReady == ReadyAfter(isTerrainReady, isTreesReady, false, old(isNavMeshReady))
      ensures readyEvents == old(readyEvents) + if BuildsNow(isTerrainReady, isTreesReady, false, old(isNavMeshReady)) then 1 else 0
      ensures rebuildEvents == old(rebuildEvents) && pendingRebuilds == old(pendingRebuilds)
      ensures old(Valid()) ==> Valid()
    {
      subscribed := true;
      CheckIfGeneratorsAlreadyCompleted(terrainDone, treesDone, outcome);
      pendingTimeouts := pendingTimeouts + 1;
    }

    /** `OnDisable()`: unsubscribes and stops the timeout coroutine. */
    method OnDisable()
      modifies this
      ensures !subscribed && pendingTimeouts == 0
      ensures isNavMeshReady == old(isNavMeshReady) && isTerrainReady == old(isTerrainReady)
      ensures isTreesReady == old(isTreesReady) && pendingRebuilds == old(pendingRebuilds)
      ensures builds == old(builds) && fallbacks == old(fallbacks)
      ensures readyEvents == old(readyEvents) && rebuildEvents == old(rebuildEvents)
      ensures old(Valid()) ==> Valid()
    {
      subscribed := false;
      pendingTimeouts := 0;
    }

    /** The delayed rebuild resumes: it builds, marks the mesh ready and
        raises the event whatever the flags say. */
    method ResumeForceRebuildAfterDelay(outcome: SurfaceOutcome)
      requires pendingRebuilds > 0
      modifies this
      ensures pendingRebuilds == old(pendingRebuilds) - 1
      ensures isNavMeshReady && builds == old(builds) + 1
      ensures readyEvents == old(readyEvents) + 1 && rebuildEvents == old(rebuildEvents) + 1
      ensures isTerrainReady == old(isTerrainReady) && isTreesReady == old(isTreesReady)
      ensures subscribed == old(subscribed) && pendingTimeouts == old(pendingTimeouts)
      ensures old(Valid()) ==> Valid()
    {
      pendingRebuilds := pendingRebuilds - 1;
      BuildNavMesh(outcome);
      isNavMeshReady := true;
      readyEvents := readyEvents + 1;
      rebuildEvents := rebuildEvents + 1;
    }

    /** The timeout resumes: if the mesh is still not ready, the build is
        forced. */
    method ResumeForceBuildAfterTimeout(outcome: SurfaceOutcome)
      requires pendingTimeouts > 0
      modifies this
      ensures pendingTimeouts == old(pendingTimeouts) - 1
      ensures isNavMeshReady
      ensures readyEvents == old(readyEvents) + if old(isNavMeshReady) then 0 else 1
      ensures rebuildEvents == old(rebuildEvents) && pendingRebuilds == old(pendingRebuilds)
      ensures isTerrainReady == old(isTerrainReady) && isTreesReady == old(isTreesReady)
      ensures subscribed == old(subscribed)
      ensures old(Valid()) ==> Valid()
    {
      pendingTimeouts := pendingTimeouts - 1;
      if !isNavMeshReady {
        BuildNavMeshIfReady(true, outcome);
      }
    }

    /** `MapGenerator.OnTerrainGenerationComplete` is raised; it reaches
        `OnTerrainGenerated` only while subscribed. */
    method RaiseTerrainGenerationComplete(outcome: SurfaceOutcome)
      modifies this
      ensures !old(subscribed) ==> unchanged(this)
      ensures old(Valid()) ==> Valid()
    {
      if subscribed {
        OnTerrainGenerated(outcome);
      }
    }

    /** `TreeSpawner.OnTreeGenerationComplete` is raised; it reaches
        `OnTreesGenerated` only while subscribed. */
    method RaiseTreeGenerationComplete(outcome: SurfaceOutcome)
      modifies this
      ensures !old(subscribed) ==> unchanged(this)
      ensures old(Valid()) ==> Valid()
    {
      if subscribed {
        OnTreesGenerated(outcome);
      }
    }

    /** `OnTerrainGenerated()`: the terrain flag, then a build attempt. */
    method OnTerrainGenerated(outcome: SurfaceOutcome)
      modifies this
      ensures isTerrainReady && isTreesReady == old(isTreesReady)
      ensures isNavMeshReady == ReadyAfter(true, isTreesReady, false, old(isNavMeshReady))
      ensures readyEvents == old(readyEvents) + if BuildsNow(true, isTreesReady, false, old(isNavMeshReady)) then 1 else 0
      ensures rebuildEvents == old(rebuildEvents) && subscribed == old(subscribed)
      ensures pendingRebuilds == old(pendingRebuilds) && pendingTimeouts == old(pendingTimeouts)
      ensures old(Valid()) ==> Valid()
    {
      isTerrainReady := true;
      BuildNavMeshIfReady(false, outcome);
    }

    /** `OnTreesGenerated()`: the trees flag, then a build attempt. */
    method OnTreesGenerated(outcome: SurfaceOutcome)
      modifies this
      ensures isTreesReady && isTerrainReady == old(isTerrainReady)
      ensures isNavMeshReady == ReadyAfter(isTerrainReady, true, false, old(isNavMeshReady))
      ensures readyEvents == old(readyEvents) + if BuildsNow(isTerrainReady, true, false, old(isNavMeshReady)) then 1 else 0
      ensures rebuildEvents == old(rebuildEvents) && subscribed == old(subscribed)
      ensures pendingRebuilds == old(pendingRebuilds) && pendingTimeouts == old(pendingTimeouts)
      ensures old(Valid()) ==> Valid()
    {
      isTreesReady := true;
      BuildNavMeshIfReady(false, outcome);
    }

    /** `CheckIfGeneratorsAlreadyCompleted()`. */
    method CheckIfGeneratorsAlreadyCompleted(terrainDone: bool, treesDone: bool, outcome: SurfaceOutcome)
      modifies this
      ensures isTerrainReady == (old(isTerrainReady) || terrainDone)
      ensures isTreesReady == (old(isTreesReady) || treesDone)
      ensures isNavMeshReady == ReadyAfter(isTerrainReady, isTreesReady, false, old(isNavMeshReady))
      ensures readyEvents == old(readyEvents) + if BuildsNow(isTerrainReady, isTreesReady, false, old(isNavMeshReady)) then 1 else 0
      ensures rebuildEvents == old(rebuildEvents) && subscribed == old(subscribed)
      ensures pendingRebuilds == old(pendingRebuilds) && pendingTimeouts == old(pendingTimeouts)
      ensures old(Valid()) ==> Valid()
    {
      if terrainDone {
        isTerrainReady := true;
      }
      if treesDone {
        isTreesReady := true;
      }
      BuildNavMeshIfReady(false, outcome);
    }

    /** `BuildNavMeshIfReady(force)`: builds and raises the event only when
        both generators are done or the build is forced, and only once. */
    method BuildNavMeshIfReady(force: bool, outcome: SurfaceOutcome)
      modifies this
      ensures isNavMeshReady == ReadyAfter(isTerrainReady, isTreesReady, force, old(isNavMeshReady))
      ensures BuildsNow(isTerrainReady, isTreesReady, force, old(isNavMeshReady)) ==>
        builds == old(builds) + 1 && readyEvents == old(readyEvents) + 1
        && fallbacks == old(fallbacks) + (if outcome == Built then 0 else 1)
      ensures !BuildsNow(isTerrainReady, isTreesReady, force, old(isNavMeshReady)) ==> unchanged(this)
      ensures isTerrainReady == old(isTerrainReady) && isTreesReady == old(isTreesReady)
      ensures rebuildEvents == old(rebuildEvents) && subscribed == old(subscribed)
      ensures pendingRebuilds == old(pendingRebuilds) && pendingTimeouts == old(pendingTimeouts)
      ensures old(Valid()) && (isTerrainReady && isTreesReady ==> isNavMeshReady) ==> Valid()
      ensures old(Valid()) && !force ==> Valid()
    {
      if (isTerrainReady && isTreesReady) || force {
        if !isNavMeshReady {
          BuildNavMesh(outcome);
          isNavMeshReady := true;
          readyEvents := readyEvents + 1;
        }
      }
    }

    /** `BuildNavMesh()`: any outcome but a successful build falls back,
        which marks the mesh ready. */
    method BuildNavMesh(outcome: SurfaceOutcome)
      modifies this
      ensures builds == old(builds) + 1
      ensures fallbacks == old(fallbacks) + if outcome == Built then 0 else 1
      ensures isNavMeshReady == (old(isNavMeshReady) || outcome != Built)
      ensures isTerrainReady == old(isTerrainReady) && isTreesReady == old(isTreesReady)
      ensures readyEvents == old(readyEvents) && rebuildEvents == old(rebuildEvents) && subscribed == old(subscribed)
      ensures pendingRebuilds == old(pendingRebuilds) && pendingTimeouts == old(pendingTimeouts)
    {
      builds := builds + 1;
      if outcome != Built {
        FallbackNavMeshBuild();
      }
    }

    /** `FallbackNavMeshBuild()`: the mesh is taken to be ready. */
    method FallbackNavMeshBuild()
      modifies this
      ensures isNavMeshReady && fallbacks == old(fallbacks) + 1
      ensures isTerrainReady == old(isTerrainReady) && isTreesReady == old(isTreesReady) && builds == old(builds)
      ensures readyEvents == old(readyEvents) && rebuildEvents == old(rebuildEvents) && subscribed == old(subscribed)
      ensures pendingRebuilds == old(pendingRebuilds) && pendingTimeouts == old(pendingTimeouts)
    {
      isNavMeshReady := true;
      fallbacks := fallbacks + 1;
    }
  }
}
