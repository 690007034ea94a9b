/** End-of-game cups. Five achievements picked at random from the reward
    table are awarded: every player with the best value of that achievement's
    statistic (the largest, or for the three "least" kinds the smallest) gets
    its reward. The results are then ordered by cups, most first, keeping the
    order of arrival among equal counts, and the first is the winner. */
module Cups {
  import opened Common

  /** `ulong` client ids. */
  type ULong = x: int | 0 <= x < 0x1_0000_0000_0000_0000

  datatype AchievementType =
    | MostResources | MostMobs | MostPlayers | BossKiller | MostBossDamage
    | MostChests | MostGold | MostDistance | MostDeaths | LeastGold | LeastDistance | LeastResources

  /** The reward table, in declaration order. */
  const AchievementRewards: seq<(AchievementType, int)> := [
    (MostResources, 1), (MostMobs, 2), (MostPlayers, 2), (BossKiller, 3), (MostBossDamage, 2),
    (MostChests, 1), (MostGold, 1), (MostDistance, 1), (MostDeaths, -2), (LeastGold, -1),
    (LeastDistance, -1), (LeastResources, -1)
  ]

  /** The reward of an achievement, as the table lists it; every kind is in
      the table exactly once. */
  function Reward(t: AchievementType): (r: int)
    ensures forall k :: 0 <= k < |AchievementRewards| && AchievementRewards[k].0 == t ==> AchievementRewards[k].1 == r
  {
    match t
    case MostResources => 1
    case MostMobs => 2
    case MostPlayers => 2
    case BossKiller => 3
    case MostBossDamage => 2
    case MostChests => 1
    case MostGold => 1
    case MostDistance => 1
    case MostDeaths => -2
    case LeastGold => -1
    case LeastDistance => -1
    case LeastResources => -1
  }

  /** Every kind of achievement has a row in the reward table. */
  lemma EveryKindListed(t: AchievementType)
    ensures exists k :: 0 <= k < |AchievementRewards| && AchievementRewards[k] == (t, Reward(t))
  {
    var k := match t
      case MostResources => 0
      case MostMobs => 1
      case MostPlayers => 2
      case BossKiller => 3
      case MostBossDamage => 4
      case MostChests => 5
      case MostGold => 6
      case MostDistance => 7
      case MostDeaths => 8
      case LeastGold => 9
      case LeastDistance => 10
      case LeastResources => 11;
    assert AchievementRewards[k] == (t, Reward(t));
  }

  /** `type.ToString()`, the key under which an achievement is recorded. */
  function TypeName(t: AchievementType): string {
    match t
    case MostResources => "MostResources"
    case MostMobs => "MostMobs"
    case MostPlayers => "MostPlayers"
    case BossKiller => "BossKiller"
    case MostBossDamage => "MostBossDamage"
    case MostChests => "MostChests"
    case MostGold => "MostGold"
    case MostDistance => "MostDistance"
    case MostDeaths => "MostDeaths"
    case LeastGold => "LeastGold"
    case LeastDistance => "LeastDistance"
    case LeastResources => "LeastResources"
  }

  /** Length, first letter and fifth letter: enough to tell the
      achievement names apart. */
  function NameKey(name: string): (int, char, char)
  {
    if |name| < 5 then (|name|, ' ', ' ') else (|name|, name[0], name[4])
  }

  /** The achievement whose name has key `k`, if any. */
  function TypeOfKey(k: (int, char, char)): Option<AchievementType>
  {
    match k
    case (13, 'M', 'R') => Some(MostResources)
    case (8, 'M', 'M') => Some(MostMobs)
    case (11, 'M', 'P') => Some(MostPlayers)
    case (10, 'B', 'K') => Some(BossKiller)
    case (14, 'M', 'B') => Some(MostBossDamage)
    case (10, 'M', 'C') => Some(MostChests)
    case (8, 'M', 'G') => Some(MostGold)
    case (12, 'M', 'D') => Some(MostDistance)
    case (10, 'M', 'D') => Some(MostDeaths)
    case (9, 'L', 't') => Some(LeastGold)
    case (13, 'L', 't') => Some(LeastDistance)
    case (14, 'L', 't') => Some(LeastResources)
    case _ => None
  }

  /** Different achievements are recorded under different names. */
  lemma TypeNameInjective(a: AchievementType, b: AchievementType)
    ensures TypeName(a) == TypeName(b) ==> a == b
  {
    TypeNameKey(a);
    TypeNameKey(b);
  }

  lemma TypeNameKey(t: AchievementType)
    ensures TypeOfKey(NameKey(TypeName(t))) == Some(t)
  {
  }

  /** C#'s `(int)` cast of a float: truncation toward zero. */
  function TruncateToInt(x: real): (n: int)
    ensures x >= 0.0 ==> n >= 0 && n as real <= x < n as real + 1.0
    ensures x < 0.0 ==> n <= 0 && n as real - 1.0 < x <= n as real
  {
    if x >= 0.0 then x.Floor else -((-x).Floor)
  }

  datatype PlayerStatsData = PlayerStatsData(
    clientId: ULong,
    resourcesCollected: int,
    mobsKilled: int,
    playersKilled: int,
    bossKills: int,
    bossDamage: int,
    chestsOpened: int,
    goldCollected: int,
    distanceTraveled: real,
    deaths: int)

  datatype PlayerResult = PlayerResult(
    clientId: ULong,
    cupCount: int,
    playerName: string,
    earnedAchievements: map<string, int>)

  /** The selector each achievement is judged by. */
  function Stat(p: PlayerStatsData, t: AchievementType): int {
    match t
    case MostResources => p.resourcesCollected
    case MostMobs => p.mobsKilled
    case MostPlayers => p.playersKilled
    case BossKiller => p.bossKills
    case MostBossDamage => p.bossDamage
    case MostChests => p.chestsOpened
    case MostGold => p.goldCollected
    case MostDistance => TruncateToInt(p.distanceTraveled)
    case MostDeaths => p.deaths
    case LeastGold => p.goldCollected
    case LeastDistance => TruncateToInt(p.distanceTraveled)
    case LeastResources => p.resourcesCollected
  }

  /** Achievements handed out through `GiveToMax`; the other three go through
      `GiveToMin`. */
  predicate ToMax(t: AchievementType) {
    !(t == LeastGold || t == LeastDistance || t == LeastResources)
  }

  /** `players.Max(selector)`. */
  function MaxStat(ps: seq<PlayerStatsData>, t: AchievementType): (m: int)
    requires |ps| > 0
    ensures exists i :: 0 <= i < |ps| && Stat(ps[i], t) == m
    ensures forall i :: 0 <= i < |ps| ==> Stat(ps[i], t) <= m
  {
    if |ps| == 1 then Stat(ps[0], t)
    else
      var m := MaxStat(ps[1..], t);
      assert forall i :: 1 <= i < |ps| ==> ps[i] == ps[1..][i - 1];
      if Stat(ps[0], t) >= m then Stat(ps[0], t) else m
  }

  /** `players.Min(selector)`. */
  function MinStat(ps: seq<PlayerStatsData>, t: AchievementType): (m: int)
    requires |ps| > 0
    ensures exists i :: 0 <= i < |ps| && Stat(ps[i], t) == m
    ensures forall i :: 0 <= i < |ps| ==> Stat(ps[i], t) >= m
  {
    if |ps| == 1 then Stat(ps[0], t)
    else
      var m := MinStat(ps[1..], t);
      assert forall i :: 1 <= i < |ps| ==> ps[i] == ps[1..][i - 1];
      if Stat(ps[0], t) <= m then Stat(ps[0], t) else m
  }

  /** The best value of the achievement's statistic. */
  function Best(ps: seq<PlayerStatsData>, t: AchievementType): int
    requires |ps| > 0
  {
    if ToMax(t) then MaxStat(ps, t) else MinStat(ps, t)
  }

  /** Player `i` has the best value for achievement `t`. */
  predicate Wins(ps: seq<PlayerStatsData>, i: nat, t: AchievementType)
    requires |ps| > 0 && i < |ps|
  {
    Stat(ps[i], t) == Best(ps, t)
  }

  /** The loop body of `GiveToMax`/`GiveToMin` for one player. */
  function Credit(r: PlayerResult, t: AchievementType, reward: int): PlayerResult {
    r.(cupCount := r.cupCount + reward, earnedAchievements := r.earnedAchievements[TypeName(t) := reward])
  }

  /** The results after crediting every player whose statistic equals `best`. */
  function AwardAt(ps: seq<PlayerStatsData>, rs: seq<PlayerResult>, t: AchievementType, reward: int, best: int): (out: seq<PlayerResult>)
    requires |ps| == |rs|
    ensures |out| == |rs|
  {
    seq(|rs|, i requires 0 <= i < |rs| => if Stat(ps[i], t) == best then Credit(rs[i], t, reward) else rs[i])
  }

  /** One selected achievement handed out. */
  function AwardOne(ps: seq<PlayerStatsData>, rs: seq<PlayerResult>, a: (AchievementType, int)): (out: seq<PlayerResult>)
    requires |ps| == |rs| > 0
    ensures |out| == |rs|
  {
    AwardAt(ps, rs, a.0, a.1, Best(ps, a.0))
  }

  /** All selected achievements handed out, in the order they were picked. */
  function AwardAll(ps: seq<PlayerStatsData>, rs: seq<PlayerResult>, selected: seq<(AchievementType, int)>): (out: seq<PlayerResult>)
    requires |ps| == |rs| > 0
    ensures |out| == |rs|
    decreases |selected|
  {
    if selected == [] then rs else AwardAll(ps, AwardOne(ps, rs, selected[0]), selected[1..])
  }

  /** The fresh results, one per player, in the players' order. */
  function InitialResults(ps: seq<PlayerStatsData>): (rs: seq<PlayerResult>)
    ensures |rs| == |ps|
  {
    seq(|ps|, i requires 0 <= i < |ps| => PlayerResult(ps[i].clientId, 0, "Unknown", map[]))
  }

  /** The cups player `i` earns from the selected achievements. */
  function CupsOf(ps: seq<PlayerStatsData>, selected: seq<(AchievementType, int)>, i: nat): int
    requires i < |ps|
    decreases |selected|
  {
    if selected == [] then 0
    else (if Wins(ps, i, selected[0].0) then selected[0].1 else 0) + CupsOf(ps, selected[1..], i)
  }

  /** Player `i` wins one of the selected achievements of kind `t`. */
  predicate WonAny(ps: seq<PlayerStatsData>, selected: seq<(AchievementType, int)>, i: nat, t: AchievementType)
    requires i < |ps|
  {
    exists j :: 0 <= j < |selected| && selected[j].0 == t && Wins(ps, i, t)
  }

  /** Handing out the selected achievements adds to each player exactly the
      rewards of the achievements that player is best at, records each such
      achievement under its name with the table's reward, and keeps every
      player's id, name and position. */
  lemma AwardAllFacts(ps: seq<PlayerStatsData>, rs: seq<PlayerResult>, selected: seq<(AchievementType, int)>, i: nat)
    requires |ps| == |rs| > 0 && i < |ps|
    requires forall j :: 0 <= j < |selected| ==> selected[j].1 == Reward(selected[j].0)
    ensures var out := AwardAll(ps, rs, selected)[i];
      && out.clientId == rs[i].clientId && out.playerName == rs[i].playerName
      && out.cupCount == rs[i].cupCount + CupsOf(ps, selected, i)
      && (forall t :: TypeName(t) in out.earnedAchievements <==>
            TypeName(t) in rs[i].earnedAchievements || WonAny(ps, selected, i, t))
      && (forall t :: WonAny(ps, selected, i, t) ==> out.earnedAchievements[TypeName(t)] == Reward(t))
      && (forall t :: !WonAny(ps, selected, i, t) && TypeName(t) in rs[i].earnedAchievements ==>
            out.earnedAchievements[TypeName(t)] == rs[i].earnedAchievements[TypeName(t)])
  {
    AwardAllCups(ps, rs, selected, i);
    forall t
      ensures var out := AwardAll(ps, rs, selected)[i];
        && (TypeName(t) in out.earnedAchievements <==> TypeName(t) in rs[i].earnedAchievements || WonAny(ps, selected, i, t))
        && (WonAny(ps, selected, i, t) ==> out.earnedAchievements[TypeName(t)] == Reward(t))
        && (!WonAny(ps, selected, i, t) && TypeName(t) in rs[i].earnedAchievements ==>
              out.earnedAchievements[TypeName(t)] == rs[i].earnedAchievements[TypeName(t)])
    {
      AwardAllAchievement(ps, rs, selected, i, t);
    }
  }

  /** Player `i` keeps id and name and gains exactly the cups of the
      achievements it is best at. */
  lemma {:induction false} AwardAllCups(ps: seq<PlayerStatsData>, rs: seq<PlayerResult>, selected: seq<(AchievementType, int)>, i: nat)
    requires |ps| == |rs| > 0 && i < |ps|
    ensures var out := AwardAll(ps, rs, selected)[i];
      && out.clientId == rs[i].clientId && out.playerName == rs[i].playerName
      && out.cupCount == rs[i].cupCount + CupsOf(ps, selected, i)
    decreases |selected|
  {
    if selected != [] {
      AwardAllCups(ps, AwardOne(ps, rs, selected[0]), selected[1..], i);
      AwardOneAt(ps, rs, selected[0], i);
    }
  }

  /** How achievement kind `t` ends up recorded for player `i`. */
  lemma {:induction false} AwardAllAchievement(ps: seq<PlayerStatsData>, rs: seq<PlayerResult>, selected: seq<(AchievementType, int)>, i: nat, t: AchievementType)
    requires |ps| == |rs| > 0 && i < |ps|
    requires forall j :: 0 <= j < |selected| ==> selected[j].1 == Reward(selected[j].0)
    ensures var out := AwardAll(ps, rs, selected)[i];
      && (TypeName(t) in out.earnedAchievements <==> TypeName(t) in rs[i].earnedAchievements || WonAny(ps, selected, i, t))
      && (WonAny(ps, selected, i, t) ==> out.earnedAchievements[TypeName(t)] == Reward(t))
      && (!WonAny(ps, selected, i, t) && TypeName(t) in rs[i].earnedAchievements ==>
            out.earnedAchievements[TypeName(t)] == rs[i].earnedAchievements[TypeName(t)])
    decreases |selected|
  {
    if selected != [] {
      var rs1 := AwardOne(ps, rs, selected[0]);
      var rest := selected[1..];
      forall j | 0 <= j < |rest| ensures rest[j].1 == Reward(rest[j].0) {
        assert rest[j] == selected[j + 1];
      }
      AwardAllAchievement(ps, rs1, rest, i, t);
      AwardOneAt(ps, rs, selected[0], i);
      WonAnyCons(ps, selected, i, t);
      TypeNameInjective(selected[0].0, t);
    }
  }

  /** What one handed-out achievement does to player `i`. */
  lemma AwardOneAt(ps: seq<PlayerStatsData>, rs: seq<PlayerResult>, a: (AchievementType, int), i: nat)
    requires |ps| == |rs| > 0 && i < |ps|
    ensures AwardOne(ps, rs, a)[i] == if Wins(ps, i, a.0) then Credit(rs[i], a.0, a.1) else rs[i]
  {
  }

  lemma WonAnyCons(ps: seq<PlayerStatsData>, selected: seq<(AchievementType, int)>, i: nat, t: AchievementType)
    requires selected != [] && i < |ps|
    ensures WonAny(ps, selected, i, t) <==> (selected[0].0 == t && Wins(ps, i, t)) || WonAny(ps, selected[1..], i, t)
  {
    var rest := selected[1..];
    if WonAny(ps, selected, i, t) {
      var j :| 0 <= j < |selected| && selected[j].0 == t && Wins(ps, i, t);
      if j > 0 {
        assert rest[j - 1] == selected[j];
      }
    }
    if WonAny(ps, rest, i, t) {
      var j :| 0 <= j < |rest| && rest[j].0 == t && Wins(ps, i, t);
      assert selected[j + 1] == rest[j];
    }
  }

  /** `Insert` for the stable descending order: `r` goes before the first
      result that has no more cups than it. */
  function Insert(r: PlayerResult, s: seq<PlayerResult>): (out: seq<PlayerResult>)
    ensures |out| == |s| + 1
  {
    if s == [] || r.cupCount >= s[0].cupCount then [r] + s
    else [s[0]] + Insert(r, s[1..])
  }

  /** `results.OrderByDescending(r => r.cupCount)`, a stable sort. */
  function SortByCups(rs: seq<PlayerResult>): (out: seq<PlayerResult>)
    ensures |out| == |rs|
  {
    if rs == [] then [] else Insert(rs[0], SortByCups(rs[1..]))
  }

  predicate Descending(s: seq<PlayerResult>) {
    forall i, j :: 0 <= i < j < |s| ==> s[i].cupCount >= s[j].cupCount
  }

  /** The results with exactly `c` cups, in order. */
  function WithCups(s: seq<PlayerResult>, c: int): seq<PlayerResult> {
    if s == [] then []
    else (if s[0].cupCount == c then [s[0]] else []) + WithCups(s[1..], c)
  }

  lemma {:induction false} InsertPermutes(r: PlayerResult, s: seq<PlayerResult>)
    ensures multiset(Insert(r, s)) == multiset(s) + multiset{r}
    decreases |s|
  {
    if s != [] && r.cupCount < s[0].cupCount {
      InsertPermutes(r, s[1..]);
      assert s == [s[0]] + s[1..];
    }
  }

  lemma {:induction false} InsertDescending(r: PlayerResult, s: seq<PlayerResult>)
    requires Descending(s)
    ensures Descending(Insert(r, s))
    decreases |s|
  {
    if s != [] && r.cupCount < s[0].cupCount {
      var t := Insert(r, s[1..]);
      InsertDescending(r, s[1..]);
      InsertBounded(r, s[1..], s[0].cupCount);
      var out := Insert(r, s);
      assert out == [s[0]] + t;
      forall i, j | 0 <= i < j < |out| ensures out[i].cupCount >= out[j].cupCount {
        if i > 0 {
          assert out[i] == t[i - 1] && out[j] == t[j - 1];
        } else {
          assert out[j] == t[j - 1];
        }
      }
    }
  }

  /** Inserting keeps every result at or below a common bound. */
  lemma {:induction false} InsertBounded(r: PlayerResult, s: seq<PlayerResult>, bound: int)
    requires r.cupCount <= bound && forall k :: 0 <= k < |s| ==> s[k].cupCount <= bound
    ensures forall k :: 0 <= k < |Insert(r, s)| ==> Insert(r, s)[k].cupCount <= bound
    decreases |s|
  {
    if s != [] && r.cupCount < s[0].cupCount {
      InsertBounded(r, s[1..], bound);
      var t := Insert(r, s[1..]);
      assert Insert(r, s) == [s[0]] + t;
    }
  }

  lemma {:induction false} InsertWithCups(r: PlayerResult, s: seq<PlayerResult>, c: int)
    ensures WithCups(Insert(r, s), c) == (if r.cupCount == c then [r] else []) + WithCups(s, c)
    decreases |s|
  {
    if s == [] || r.cupCount >= s[0].cupCount {
      WithCupsCons(r, s, c);
    } else {
      var t := Insert(r, s[1..]);
      InsertWithCups(r, s[1..], c);
      WithCupsCons(s[0], t, c);
      WithCupsCons(s[0], s[1..], c);
      assert s == [s[0]] + s[1..];
      var head := if s[0].cupCount == c then [s[0]] else [];
      var mine := if r.cupCount == c then [r] else [];
      assert head == [] || mine == [];
    }
  }

  lemma WithCupsCons(x: PlayerResult, t: seq<PlayerResult>, c: int)
    ensures WithCups([x] + t, c) == (if x.cupCount == c then [x] else []) + WithCups(t, c)
  {
    assert ([x] + t)[1..] == t;
  }

  /** Ordering by cups keeps every result (a permutation), puts them in
      non-increasing order of cups, and keeps the original order among
      results with equal cups (stability). */
  lemma {:induction false} SortByCupsFacts(rs: seq<PlayerResult>, c: int)
    ensures multiset(SortByCups(rs)) == multiset(rs)
    ensures Descending(SortByCups(rs))
    ensures WithCups(SortByCups(rs), c) == WithCups(rs, c)
    decreases |rs|
  {
    if rs != [] {
      SortByCupsFacts(rs[1..], c);
      InsertPermutes(rs[0], SortByCups(rs[1..]));
      InsertDescending(rs[0], SortByCups(rs[1..]));
      InsertWithCups(rs[0], SortByCups(rs[1..]), c);
      assert rs == [rs[0]] + rs[1..];
    }
  }

  /** The winner, the first of the ordered results, has the most cups, and it
      is the first player in arrival order who has that many. */
  lemma WinnerFacts(rs: seq<PlayerResult>)
    requires |rs| > 0
    ensures var w := SortByCups(rs)[0];
      && (forall k :: 0 <= k < |rs| ==> rs[k].cupCount <= w.cupCount)
      && exists k :: 0 <= k < |rs| && rs[k] == w && forall j :: 0 <= j < k ==> rs[j].cupCount < w.cupCount
  {
    var sorted := SortByCups(rs);
    var w := sorted[0];
    SortByCupsFacts(rs, w.cupCount);
    forall k | 0 <= k < |rs| ensures rs[k].cupCount <= w.cupCount {
      assert rs[k] in multiset(rs);
      assert rs[k] in multiset(sorted);
      var m :| 0 <= m < |sorted| && sorted[m] == rs[k];
    }
    assert sorted == [w] + sorted[1..];
    assert WithCups(sorted, w.cupCount)[0] == w;
    FirstWithCups(rs, w.cupCount);
  }

  /** The first result with `c` cups is the head of `WithCups`, and every
      result before it has fewer cups when none has more. */
  lemma {:induction false} FirstWithCups(rs: seq<PlayerResult>, c: int)
    requires WithCups(rs, c) != []
    requires forall k :: 0 <= k < |rs| ==> rs[k].cupCount <= c
    ensures exists k :: 0 <= k < |rs| && rs[k] == WithCups(rs, c)[0] && forall j :: 0 <= j < k ==> rs[j].cupCount < c
    decreases |rs|
  {
    if rs[0].cupCount != c {
      FirstWithCups(rs[1..], c);
      var k :| 0 <= k < |rs[1..]| && rs[1..][k] == WithCups(rs[1..], c)[0] && forall j :: 0 <= j < k ==> rs[1..][j].cupCount < c;
      assert rs[k + 1] == WithCups(rs, c)[0];
      forall j | 0 <= j < k + 1 ensures rs[j].cupCount < c {
        if j > 0 {
          assert rs[j] == rs[1..][j - 1];
        }
      }
    } else {
      assert rs[0] == WithCups(rs, c)[0];
    }
  }

  /** Client ids in the received statistics are pairwise different. */
  predicate UniqueClients(s: seq<PlayerStatsData>) {
    forall i, j :: 0 <= i < j < |s| ==> s[i].clientId != s[j].clientId
  }

  class CupManager {
    /** `IsServer`. */
    const isServer: bool
    var gameEnded: bool
    var receivedStats: seq<PlayerStatsData>
    var lastResults: seq<PlayerResult>
    /** `CheckGameEndCoroutine` runs started and not yet resumed. */
    var pendingChecks: nat

    constructor (isServer: bool)
      ensures this.isServer == isServer && !gameEnded && receivedStats == [] && lastResults == [] && pendingChecks == 0
    {
      this.isServer := isServer;
      gameEnded := false;
      receivedStats := [];
      lastResults := [];
      pendingChecks := 0;
    }

    /** `ReceivePlayerStats`: the server keeps the first report of each
        client and ignores repeats. */
    method ReceivePlayerStats(stats: PlayerStatsData)
      modifies this
      ensures receivedStats ==
        if !isServer || exists k :: 0 <= k < |old(receivedStats)| && old(receivedStats)[k].clientId == stats.clientId
        then old(receivedStats) else old(receivedStats) + [stats]
      ensures UniqueClients(old(receivedStats)) ==> UniqueClients(receivedStats)
      ensures gameEnded == old(gameEnded) && lastResults == old(lastResults) && pendingChecks == old(pendingChecks)
    {
      if !isServer {
        return;
      }
      if exists k :: 0 <= k < |receivedStats| && receivedStats[k].clientId == stats.clientId {
        return;
      }
      receivedStats := receivedStats + [stats];
    }

    /** `StartCheckGameEndCoroutine`, `CupManager`'s own subscriber of
        `OnGameEnded`. The other subscriber, `PlayerStatisticsController`,
        reports stats during the event, and `HandleBossDefeated` clears them
        right after it, so that handler is left out. */
    method StartCheckGameEndCoroutine()
      modifies this
      ensures pendingChecks == if old(gameEnded) || !isServer then old(pendingChecks) else old(pendingChecks) + 1
      ensures gameEnded == old(gameEnded) && receivedStats == old(receivedStats) && lastResults == old(lastResults)
    {
      if gameEnded || !isServer {
        return;
      }
      pendingChecks := pendingChecks + 1;
    }

    /** `HandleBossDefeated`: the server marks the game as ended, raises
        `OnGameEnded` and clears the statistics. The flag is set before the
        event is raised, so the event's handler starts no check: a boss defeat
        never adds a pending check. */
    method HandleBossDefeated()
      modifies this
      ensures gameEnded == (old(gameEnded) || isServer)
      ensures pendingChecks == old(pendingChecks)
      ensures receivedStats == if !old(gameEnded) && isServer then [] else old(receivedStats)
      ensures lastResults == old(lastResults)
    {
      if !gameEnded && isServer {
        gameEnded := true;
        StartCheckGameEndCoroutine();
        receivedStats := [];
      }
    }

    /** `GiveToMax(players, results, selector, reward, type)`. */
    static method GiveToMax(players: seq<PlayerStatsData>, results: seq<PlayerResult>, t: AchievementType, reward: int)
      returns (out: seq<PlayerResult>)
      requires |players| == |results| > 0
      ensures out == AwardAt(players, results, t, reward, MaxStat(players, t))
    {
      var max := MaxStat(players, t);
      out := results;
      var i := 0;
      while i < |players|
        invariant 0 <= i <= |players| && |out| == |results|
        invariant forall k :: 0 <= k < i ==> out[k] == AwardAt(players, results, t, reward, max)[k]
        invariant forall k :: i <= k < |out| ==> out[k] == results[k]
      {
        if Stat(players[i], t) == max {
          out := out[i := Credit(out[i], t, reward)];
        }
        i := i + 1;
      }
    }

    /** `GiveToMin(players, results, selector, reward, type)`. */
    static method GiveToMin(players: seq<PlayerStatsData>, results: seq<PlayerResult>, t: AchievementType, reward: int)
      returns (out: seq<PlayerResult>)
      requires |players| == |results| > 0
      ensures out == AwardAt(players, results, t, reward, MinStat(players, t))
    {
      var min := MinStat(players, t);
      out := results;
      var i := 0;
      while i < |players|
        invariant 0 <= i <= |players| && |out| == |results|
        invariant forall k :: 0 <= k < i ==> out[k] == AwardAt(players, results, t, reward, min)[k]
        invariant forall k :: i <= k < |out| ==> out[k] == results[k]
      {
        if Stat(players[i], t) == min {
          out := out[i := Credit(out[i], t, reward)];
        }
        i := i + 1;
      }
    }

    /** `DistributeCupsAtGameEnd(players)`, with `selected` the achievements
        the random shuffle put first. With no players `Max` throws before
        anything is stored. */
    method DistributeCupsAtGameEnd(players: seq<PlayerStatsData>, selected: seq<(AchievementType, int)>)
      returns (winner: Option<ULong>)
      modifies this
      ensures isServer && |players| > 0 ==>
        lastResults == SortByCups(AwardAll(players, InitialResults(players), selected))
        && winner == Some(lastResults[0].clientId)
      ensures !isServer || |players| == 0 ==> lastResults == old(lastResults) && winner == None
      ensures gameEnded == old(gameEnded) && receivedStats == old(receivedStats) && pendingChecks == old(pendingChecks)
    {
      if !isServer {
        return None;
      }
      if |players| == 0 {
        return None;
      }
      var results := InitialResults(players);
      var j := 0;
      while j < |selected|
        invariant 0 <= j <= |selected| && |results| == |players|
        invariant unchanged(this)
        invariant AwardAll(players, results, selected[j..]) == AwardAll(players, InitialResults(players), selected)
      {
        var (t, reward) := selected[j];
        assert selected[j..][1..] == selected[j + 1..];
        if ToMax(t) {
          results := GiveToMax(players, results, t, reward);
        } else {
          results := GiveToMin(players, results, t, reward);
        }
        j := j + 1;
      }
      var sorted := SortByCups(results);
      lastResults := sorted;
      winner := Some(sorted[0].clientId);
    }

    /** The rest of `CheckGameEndCoroutine` after its one-second wait:
        distribute when any statistics arrived. */
    method ResumeCheckGameEnd(selected: seq<(AchievementType, int)>)
      requires pendingChecks > 0
      modifies this
      ensures pendingChecks == old(pendingChecks) - 1
      ensures isServer && |old(receivedStats)| > 0 ==>
        lastResults == SortByCups(AwardAll(old(receivedStats), InitialResults(old(receivedStats)), selected))
      ensures !isServer || |old(receivedStats)| == 0 ==> lastResults == old(lastResults)
      ensures gameEnded == old(gameEnded) && receivedStats == old(receivedStats)
    {
      pendingChecks := pendingChecks - 1;
      if !isServer {
        return;
      }
      if |receivedStats| > 0 {
        var winner := DistributeCupsAtGameEnd(receivedStats, selected);
      }
    }
  }
}
