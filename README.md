# CupThrone game logic in Dafny

CupThrone is a Unity multiplayer survival game. This project models the
parts of it that are plain, sequential game logic, with the engine calls
turned into parameters, and proves what that logic guarantees:

- **Inventory engine**: the `ItemContainer` slot array with per-item stack
  limits, the `ItemSlot` value, crafting on top of the container (check
  every material, consume, add the product), the hotbar and its slots, and
  the hand-item selection of `HandItems`.
- **Cup scoring** (`CupManager`): the fixed reward table, per-client stats,
  max/min award rules with ties, the stable descending ranking and the
  game-end latch. The latch is set before the end-of-game event is raised,
  so the event's handler schedules no check and the distribution of cups
  is never reached from a boss defeat; it is modelled and proved on its own.
- **Combat and health**: `Health`, `Enemy`, the `BasicEnemy` state machine
  with nearest-player selection, `TreeHealth`, the melee combo controller,
  and the two bow `ProjectileLauncher`s with the `ArrowWallet` ammo guard.
- **Readiness and sign-in**: the `DynamicNavMeshBuilder` build latch and the
  `AuthenticationWrapper` retry loop over `AuthState`.
- **Terrain seeds**: the seed priority and validation rules of
  `MapGenerator`, `NetworkTerrainManager`, `TerrainSeedManager` and
  `SeedDirectInjector`. Their static fields are one shared `SeedStatics`
  object.
- **`LogScreen`**: a bounded FIFO of coloured log lines.
- **Item descriptions**: `GetInfoDisplayText` of the five item kinds.

Objects whose fields the game updates in place are Dafny classes. Their
methods state the whole new state, usually as a function of the old one.
The properties are proved about those functions as lemmas. C# `int`
arithmetic is written out as 32-bit wrap-around (`Common.Wrap32`) where the
model follows an overflow; the sums it leaves unbounded are listed under
"Left out". Floats are modelled as `real`. Frame times, random
draws, engine look-ups and the sign-in call are all parameters. A coroutine
or `Invoke` is modelled as a pending counter plus a `Resume…` method for
its continuation.

Files:

- `items.dfy`: items and slots.
- `container_spec.dfy`: the container's specification functions and lemmas.
- `item_container.dfy`: the array-backed container.
- `crafting.dfy`, `hotbar.dfy`, `hand_items.dfy`: the rest of the inventory.
- `cups.dfy`: cup scoring.
- `health.dfy`, `enemy.dfy`, `basic_enemy.dfy`, `tree_health.dfy`, `melee.dfy`: combat and health.
- `launcher_common.dfy`, `bow_launcher.dfy`, `player_launcher.dfy`: the launchers and the ammo wallet.
- `navmesh.dfy`, `auth.dfy`: readiness and sign-in.
- `seeds.dfy`: terrain seeds.
- `log_screen.dfy`: the log screen.
- `item_info.dfy`: item descriptions.
- `common.dfy`: string splitting and joining, decimal formatting and parsing, and 32-bit wrap-around.

## Model

| member | source | states |
|---|---|---|
| Items.SlotEquals | Assets/Scripts/Core/Inventory/ItemSlot.cs:16 | `==` on slots holds exactly when both the item and the quantity are equal |
| Items.SlotDiffers | Assets/Scripts/Core/Inventory/ItemSlot.cs:17 | `!=` is the negation of `==`, i.e. some field differs |
| ItemContainers.ItemContainer.constructor | Assets/Scripts/Core/Inventory/ItemContainer.cs:12 | a new container of size n has exactly n slots, all empty (null item, quantity 0), and `OnItemsUpdated` has not been raised |
| ItemContainers.ItemContainer.GetSlotByIndex | Assets/Scripts/Core/Inventory/ItemContainer.cs:14 | returns slot `index` unchanged |
| ItemContainers.ItemContainer.AddItem | Assets/Scripts/Core/Inventory/ItemContainer.cs:16-71 | the two in-place loops leave the slots equal to `ContainerSpec.Add` and return the item with the quantity that did not fit, and every path raises `OnItemsUpdated` exactly once; `ContainerSpec.AddFacts` gives its meaning |
| ItemContainers.ItemContainer.RemoveItem | Assets/Scripts/Core/Inventory/ItemContainer.cs:73-104 | the slots after the loop as written, which keeps scanning after a partial decrement (`ContainerSpec.RemoveScanAt`); `OnItemsUpdated` is raised once iff the scan stops at a stack holding exactly what is still requested (`ContainerSpec.RemoveScanNotifies`), never when stacks are only decremented or the request exceeds the total |
| ItemContainers.ItemContainer.RemoveItemCorrected | Assets/Scripts/Core/Inventory/ItemContainer.cs:73-104 | the loop with the evident intent, which stops once the request is met; the slots equal `ContainerSpec.RemoveUpToAt`, and the event is raised as in the source, only when a stack reaches exactly 0 (`ContainerSpec.RemoveUpToNotifies`) |
| ItemContainers.ItemContainer.RemoveAt | Assets/Scripts/Core/Inventory/ItemContainer.cs:106-113 | the slots equal `ContainerSpec.RemoveAtSpec`: out of range changes nothing and raises no event, otherwise exactly that slot is emptied and `OnItemsUpdated` is raised once (`ContainerSpec.RemoveAtFacts`) |
| ItemContainers.ItemContainer.HasItem | Assets/Scripts/Core/Inventory/ItemContainer.cs:115-127 | true iff some slot holds the item |
| ItemContainers.ItemContainer.Swap | Assets/Scripts/Core/Inventory/ItemContainer.cs:129-158 | the slots equal `ContainerSpec.SwapSpec`: equal slots are left alone without an event, fitting same-item stacks merge into `toIndex`, otherwise the slots are exchanged, and either change raises `OnItemsUpdated` once (`ContainerSpec.SwapFacts`) |
| ItemContainers.ItemContainer.GetTotalQuantity | Assets/Scripts/Core/Inventory/ItemContainer.cs:159-172 | the result is the sum of the quantities of the slots holding the item |
| ItemContainers.Inventory.constructor | Assets/Scripts/Core/Inventory/Inventory.cs:11 | the player inventory is a container of 20 empty slots, with no `OnItemsUpdated` raised yet |
| ContainerSpec.HoldsIffPositiveTotal | Assets/Scripts/Core/Inventory/ItemContainer.cs:115-172 | in a well-formed container, `HasItem` holds iff `GetTotalQuantity` is positive |
| ContainerSpec.TopUpCount | Assets/Scripts/Core/Inventory/ItemContainer.cs:18-43 | topping up existing stacks conserves quantity: the item's total rises by what was placed, and everything fits iff the request is at most the stacks' free room |
| ContainerSpec.TopUpFull | Assets/Scripts/Core/Inventory/ItemContainer.cs:18-43 | when the top-up cannot place everything, every stack of the item is left full |
| ContainerSpec.FillCount | Assets/Scripts/Core/Inventory/ItemContainer.cs:45-66 | filling empty slots conserves quantity and places at most one stack limit per empty slot |
| ContainerSpec.AddFacts | Assets/Scripts/Core/Inventory/ItemContainer.cs:16-71 | `AddItem` keeps the length and well-formed slots, conserves quantity (placed + returned = requested), returns 0 iff the request fits, leaves other items' slots unchanged and uses empty slots only once the existing stacks are full |
| ContainerSpec.AddKeepsOtherTotals | Assets/Scripts/Core/Inventory/ItemContainer.cs:16-71 | adding one item leaves the total of every other item unchanged |
| ContainerSpec.RemoveUpToFacts | Assets/Scripts/Core/Inventory/ItemContainer.cs:73-104 | the corrected removal keeps the slots well formed and lowers the item's total by the request, capped at what is held |
| ContainerSpec.RemoveUpToExact | Assets/Scripts/Core/Inventory/ItemContainer.cs:73-104 | with a request of at most the total, the corrected removal removes exactly the request and leaves every other item untouched |
| ContainerSpec.RemoveNothing | Assets/Scripts/Core/Inventory/ItemContainer.cs:73-104 | removing a null item changes nothing, as written and corrected |
| ContainerSpec.RemoveScanRemovesAtLeast | Assets/Scripts/Core/Inventory/ItemContainer.cs:73-104 | the as-written removal keeps the slots well formed and removes at least the request (capped at what is held) |
| ContainerSpec.RemoveScanOverRemoves | Assets/Scripts/Core/Inventory/ItemContainer.cs:88-100 | two stacks of 5 and a request of 3 become [2, 2] as written (4 removed), against [2, 5] for the corrected removal |
| ContainerSpec.RemoveScanOthers | Assets/Scripts/Core/Inventory/ItemContainer.cs:73-104 | the as-written removal leaves the total of every other item unchanged |
| ContainerSpec.ShortRemovalIsSilent | Assets/Scripts/Core/Inventory/ItemContainer.cs:73-104 | a request for more than is held empties every stack of the item, the same with both loops, and neither raises `OnItemsUpdated` |
| ContainerSpec.RemoveNotifyExamples | Assets/Scripts/Core/Inventory/ItemContainer.cs:88-100 | with two stacks of 5 wood, removing 3 raises no event with either loop and removing 5 raises one with both |
| ContainerSpec.RemoveAtFacts | Assets/Scripts/Core/Inventory/ItemContainer.cs:106-113 | an out-of-range index changes nothing; otherwise exactly that slot becomes the empty slot |
| ContainerSpec.SwapFacts | Assets/Scripts/Core/Inventory/ItemContainer.cs:129-158 | every swap preserves each item's total and well-formedness, and changes only the two named slots |
| ContainerSpec.SwapBack | Assets/Scripts/Core/Inventory/ItemContainer.cs:154-155 | a swap that does not merge is undone both by repeating the same drag `(from, to)` and by the reverse drag `(to, from)` |
| Crafting.FindItemByName | Assets/Scripts/Core/Crafting/CraftingSystem.cs:112-118 | `None` iff no slot holds an item of that name; otherwise the item of the first such slot |
| Crafting.CraftingSystem.constructor | Assets/Scripts/Core/Crafting/CraftingSystem.cs:14 | the system works on the given player inventory |
| Crafting.RemoveKeepsLookup | Assets/Scripts/Core/Crafting/CraftingSystem.cs:75-79 | with the corrected removal, removing one material does not change which item another material's name finds |
| Crafting.ConsumeStep | Assets/Scripts/Core/Crafting/CraftingSystem.cs:75-79 | for a recipe whose material names are distinct and whose amounts are non-negative, with the corrected removal, consuming the first material lowers exactly its total by its amount; the later materials are still found as the same items, in sufficient amounts |
| Crafting.ConsumeOk | Assets/Scripts/Core/Crafting/CraftingSystem.cs:75-79 | for a recipe whose material names are distinct and whose amounts are non-negative, consuming every material keeps the slots well formed |
| Crafting.ConsumeTotals | Assets/Scripts/Core/Crafting/CraftingSystem.cs:62-79 | for a recipe whose material names are distinct and whose amounts are non-negative, with the corrected removal, once every material was checked sufficient, each material's total drops by exactly its amount (a repeated material can drop by less, `RepeatedMaterialUnderConsumes`) |
| Crafting.RemoveScanKeepsLookup | Assets/Scripts/Core/Crafting/CraftingSystem.cs:75-79 | with the removal as written, removing one material does not change which item another material's name finds |
| Crafting.ConsumeAsWrittenStep | Assets/Scripts/Core/Crafting/CraftingSystem.cs:75-79 | for a recipe whose material names are distinct and whose amounts are non-negative, as written, consuming the first material lowers its total by at least its amount and leaves every other item's total, the later lookups and their sufficiency unchanged |
| Crafting.ConsumeAsWrittenOk | Assets/Scripts/Core/Crafting/CraftingSystem.cs:75-79 | for a recipe whose material names are distinct and whose amounts are non-negative, consuming every material as written keeps the slots well formed |
| Crafting.ConsumeAsWrittenTotals | Assets/Scripts/Core/Crafting/CraftingSystem.cs:62-79 | for a recipe whose material names are distinct and whose amounts are non-negative, as written, once every material was checked sufficient, each material's total drops by at least its amount |
| Crafting.ConsumeAsWrittenOthers | Assets/Scripts/Core/Crafting/CraftingSystem.cs:75-79 | for a recipe whose material names are distinct and whose amounts are non-negative, as written, items that are not materials of the recipe still keep their totals |
| Crafting.CraftAsWrittenOverConsumes | Assets/Scripts/Core/Crafting/CraftingSystem.cs:75-79 | a plank needing 3 wood from stacks of 5 and 5 leaves 2 and 2 wood as written, against 2 and 5 for the corrected craft |
| Crafting.RepeatedMaterialUnderConsumes | Assets/Scripts/Core/Crafting/CraftingSystem.cs:62-79 | the check weighs each material alone: two requirements of 3 wood both pass against one stack of 4, and both removals (as written and corrected) leave no wood, so 4 are taken rather than 6 |
| Crafting.ConsumeOthers | Assets/Scripts/Core/Crafting/CraftingSystem.cs:75-79 | for a recipe whose material names are distinct and whose amounts are non-negative, items that are not materials of the recipe keep their totals |
| Crafting.CraftProduct | Assets/Scripts/Core/Crafting/CraftingSystem.cs:81-91 | for a recipe whose material names are distinct and whose amounts are non-negative, a found product is added once if the consumed inventory has room for it; the slots stay well formed |
| Crafting.CraftingSystem.HasSufficientMaterial | Assets/Scripts/Core/Crafting/CraftingSystem.cs:94-97 | true iff the item's total quantity reaches the required amount |
| Crafting.CraftingSystem.HasAllMaterials | Assets/Scripts/Core/Crafting/CraftingSystem.cs:62-72 | true iff every material is found by name and held in at least its amount (`CanCraft`) |
| Crafting.CraftingSystem.RemoveMaterial | Assets/Scripts/Core/Crafting/CraftingSystem.cs:99-102 | removes the material through `RemoveItem` as written: the slots become `ContainerSpec.RemoveScanAt` and the event count follows `RemoveScanNotifies` |
| Crafting.CraftingSystem.RemoveMaterialCorrected | Assets/Scripts/Core/Crafting/CraftingSystem.cs:99-102 | the same call over the corrected removal, `ContainerSpec.RemoveUpToAt` |
| Crafting.CraftingSystem.AddCraftedItem | Assets/Scripts/Core/Crafting/CraftingSystem.cs:104-109 | adds one unit of the item, as `ContainerSpec.Add`, raising `OnItemsUpdated` once |
| Crafting.CraftingSystem.AttemptCraft | Assets/Scripts/Core/Crafting/CraftingSystem.cs:54-92 | the inventory becomes `CraftAsWritten`: unchanged and silent unless every material is found in sufficient amount; then every material is removed with `RemoveItem` as written (at least its amount when the material names are distinct, `ConsumeAsWrittenTotals`) and the product is added when the resource look-up finds it; the events raised are counted |
| Crafting.CraftingSystem.AttemptCraftCorrected | Assets/Scripts/Core/Crafting/CraftingSystem.cs:54-92 | the same craft over the corrected removal: the inventory becomes `Craft`, where, when the material names are distinct, each material drops by exactly its amount (`ConsumeTotals`); a recipe repeating a material passes the check and takes less (`RepeatedMaterialUnderConsumes`) |
| Hotbars.QuantityLabel | Assets/Scripts/Core/Inventory/HotbarSlot.cs:84 | a total above 1 is shown as its decimal text, which parses back to the total; otherwise a single space |
| Hotbars.ShownFromInventory | Assets/Scripts/Core/Inventory/HotbarSlot.cs:43-48 | an item copied from an inventory slot is one the inventory holds, so it is never cleared |
| Hotbars.HotbarSlot.constructor | Assets/Scripts/Core/Inventory/HotbarSlot.cs:11-15 | a new slot is empty with its image and quantity text hidden |
| Hotbars.HotbarSlot.EnableSlotUI | Assets/Scripts/Core/Inventory/HotbarSlot.cs:97-101 | the slot image and the quantity text are both enabled or both disabled |
| Hotbars.HotbarSlot.SetSlotItem | Assets/Scripts/Core/Inventory/HotbarSlot.cs:11-15 | the setter stores the value and refreshes the UI, so an inventory item the container no longer holds is cleared, and the slot stays consistent |
| Hotbars.HotbarSlot.UpdateSlotUI | Assets/Scripts/Core/Inventory/HotbarSlot.cs:60-75 | an empty slot hides its UI; otherwise the UI is shown and the quantity refreshed, keeping the slot consistent |
| Hotbars.HotbarSlot.SetItemQuantityUI | Assets/Scripts/Core/Inventory/HotbarSlot.cs:77-95 | an inventory item that is not held is cleared; a held one gets its quantity label; other items hide the quantity |
| Hotbars.HotbarSlot.AddItem | Assets/Scripts/Core/Inventory/HotbarSlot.cs:17-29 | succeeds iff the slot was empty; a refused add changes nothing |
| Hotbars.HotbarSlot.OnDropFromInventory | Assets/Scripts/Core/Inventory/HotbarSlot.cs:43-48 | the slot takes the dropped inventory slot's item; the source is not changed |
| Hotbars.HotbarSlot.OnDropFromHotbar | Assets/Scripts/Core/Inventory/HotbarSlot.cs:50-57 | the two hotbar slots exchange their items |
| Hotbars.Hotbar.constructor | Assets/Scripts/Core/Inventory/Hotbar.cs:4 | the hotbar owns the given slot array |
| Hotbars.Hotbar.FirstFree | Assets/Scripts/Core/Inventory/Hotbar.cs:8-11 | the first empty slot from `i`, and every slot before it is occupied |
| Hotbars.Hotbar.Add | Assets/Scripts/Core/Inventory/Hotbar.cs:6-12 | the first free slot takes the item and no other slot changes; with every slot occupied nothing changes |
| HandItemsModel.HandItemIndex | Assets/Scripts/Core/Player/HandItems.cs:104-123 | -1 iff the item is null or no hand item's name contains its name; otherwise the first index whose name does |
| HandItemsModel.ScrollFacts | Assets/Scripts/Core/Player/HandItems.cs:52-64 | next and previous stay in [0, 8], wrap at both ends and undo each other |
| HandItemsModel.LastPressed | Assets/Scripts/Core/Player/HandItems.cs:42-49 | the highest-numbered key pressed this frame wins; with none pressed the index is kept |
| HandItemsModel.HandItems.constructor | Assets/Scripts/Core/Player/HandItems.cs:10-12 | no hand item is held, the index is 0 and there is no bow in hand |
| HandItemsModel.HandItems.GetHandItemIndexForHotbarItem | Assets/Scripts/Core/Player/HandItems.cs:104-123 | returns `HandItemIndex` from the start of the list |
| HandItemsModel.HandItems.SelectHotbarSlot | Assets/Scripts/Core/Player/HandItems.cs:66-102 | an index past the slots only moves the index; otherwise the old hand item is deactivated and the matching one activated, and the bow flag holds iff that item is the bow prefab |
| HandItemsModel.SelectFacts | Assets/Scripts/Core/Player/HandItems.cs:66-102 | a selection keeps the hand valid, touches no object but the old and the new hand item, and holds the first holdable object matching the slot's item, or nothing iff none matches |
| HandItemsModel.SelectAllKeeps | Assets/Scripts/Core/Player/HandItems.cs:27-50 | any run of selections keeps the hand valid and every other object as it was |
| HandItemsModel.LastSelectionWins | Assets/Scripts/Core/Player/HandItems.cs:27-50 | after several selections whose last index is within the slots, the hand is what that last selection alone gives |
| HandItemsModel.PressedLast | Assets/Scripts/Core/Player/HandItems.cs:42-49 | no number key is selected iff none went down; otherwise the last one selected is `LastPressed`'s |
| HandItemsModel.HandItems.SelectNextHotbarSlot | Assets/Scripts/Core/Player/HandItems.cs:52-57 | the index becomes `(i + 1) % 9`, and the held object, the active objects and the bow flag become `AfterSelect` of that slot |
| HandItemsModel.HandItems.SelectPreviousHotbarSlot | Assets/Scripts/Core/Player/HandItems.cs:59-64 | the index becomes `(i - 1 + 9) % 9`, and the hand becomes `AfterSelect` of that slot |
| HandItemsModel.HandItems.Start | Assets/Scripts/Core/Player/HandItems.cs:14-25 | every holdable object is deactivated, slot 0 is selected, and only the held object among them is active |
| HandItemsModel.HandItems.SelectPressedSlots | Assets/Scripts/Core/Player/HandItems.cs:42-49 | each number key that went down selects its slot in turn: the index is `LastPressed` and the hand is `SelectAll` of the pressed keys |
| HandItemsModel.HandItems.Update | Assets/Scripts/Core/Player/HandItems.cs:27-50 | the scroll wheel moves one slot with wrap-around, then each pressed number key is selected in turn; the hand is `SelectAll` of those selections, so the last one within the slots decides it |
| HandItemsModel.HandItems.GetHasBowInHand | Assets/Scripts/Core/Player/HandItems.cs:125-128 | true iff the hand item is the bow prefab |
| Cups.Reward | Assets/Scripts/Core/CupManager.cs:40-54 | each achievement's reward agrees with the fixed table |
| Cups.EveryKindListed | Assets/Scripts/Core/CupManager.cs:34-54 | every achievement kind appears in the reward table |
| Cups.TypeNameInjective | Assets/Scripts/Core/CupManager.cs:34-38 | distinct achievements have distinct names, so the names are safe dictionary keys |
| Cups.TypeNameKey | Assets/Scripts/Core/CupManager.cs:34-38 | an achievement is recovered from its name |
| Cups.TruncateToInt | Assets/Scripts/Core/CupManager.cs:128-160 | the `(int)` cast of a distance truncates toward zero |
| Cups.MaxStat | Assets/Scripts/Core/CupManager.cs:182-193 | the maximum is some player's stat and bounds every player's |
| Cups.MinStat | Assets/Scripts/Core/CupManager.cs:194-205 | the minimum is some player's stat and bounds every player's from below |
| Cups.AwardOneAt | Assets/Scripts/Core/CupManager.cs:182-205 | a player is credited with the reward and the named achievement iff their stat equals the best; others are unchanged, so ties all win |
| Cups.AwardAllFacts | Assets/Scripts/Core/CupManager.cs:118-166 | after the selected awards, each player's cups are the start plus the rewards of the achievements they won, with exactly those achievements recorded at their table reward |
| Cups.AwardAllCups | Assets/Scripts/Core/CupManager.cs:118-166 | each player's cup count is the start plus `CupsOf` their wins, and identity is kept |
| Cups.AwardAllAchievement | Assets/Scripts/Core/CupManager.cs:118-166 | an achievement is recorded for a player iff they won it (or already had it), at the table reward |
| Cups.InsertPermutes | Assets/Scripts/Core/CupManager.cs:168-170 | inserting into the ranking adds exactly one element |
| Cups.InsertDescending | Assets/Scripts/Core/CupManager.cs:168-170 | insertion keeps the ranking in non-increasing cups |
| Cups.SortByCupsFacts | Assets/Scripts/Core/CupManager.cs:168-170 | the ranking is a permutation of the results, non-increasing in cups, and stable (players with equal cups keep their order) |
| Cups.WinnerFacts | Assets/Scripts/Core/CupManager.cs:168-172 | the winner has the most cups and is the first such player in the original order |
| Cups.CupManager.constructor | Assets/Scripts/Core/CupManager.cs:11-12 | the game has not ended and no stats, results or checks are pending |
| Cups.CupManager.ReceivePlayerStats | Assets/Scripts/Core/CupManager.cs:69-98 | on the server, a client's first report is appended and later reports are ignored, so there is at most one record per client |
| Cups.CupManager.StartCheckGameEndCoroutine | Assets/Scripts/Core/CupManager.cs:207-211 | a check is scheduled only on the server and only before the game ended |
| Cups.CupManager.HandleBossDefeated | Assets/Scripts/Core/CupManager.cs:59-68 | the first boss defeat on the server ends the game and clears the stats; later calls change nothing. The latch is set before `OnGameEnded` is raised, so the handler returns at once and no end-of-game check is pending afterwards (`pendingChecks` unchanged): as written, `ResumeCheckGameEnd` and so `DistributeCupsAtGameEnd` are never reached from a boss defeat |
| Cups.CupManager.GiveToMax | Assets/Scripts/Core/CupManager.cs:182-193 | credits every player whose stat equals the maximum |
| Cups.CupManager.GiveToMin | Assets/Scripts/Core/CupManager.cs:194-205 | credits every player whose stat equals the minimum |
| Cups.CupManager.DistributeCupsAtGameEnd | Assets/Scripts/Core/CupManager.cs:114-180 | on the server with players, the results are the awarded results ranked by `SortByCups`, and the winner is the first one |
| Cups.CupManager.ResumeCheckGameEnd | Assets/Scripts/Core/CupManager.cs:212-225 | cups are distributed only when some stats were received |
| Common.Clamp | Assets/Scripts/Core/Combat/Health.cs:55 | the result lies in [min, max] and equals the value when it is already inside |
| HealthModel.Modify | Assets/Scripts/Core/Combat/Health.cs:44-65 | a dead player is unchanged; otherwise health is the clamped sum, in [0, max]; death holds iff health is 0, and `OnDie` is raised iff this call killed |
| HealthModel.DiesAtMostOnce | Assets/Scripts/Core/Combat/Health.cs:44-65 | over any sequence of modifications `OnDie` is raised at most once, exactly when a living player ends dead, and health stays in [0, max] |
| HealthModel.RestoreCanWrap | Assets/Scripts/Core/Combat/Health.cs:53 | restoring `int.MaxValue` at full health overflows the 32-bit sum and kills the player |
| HealthModel.Health.constructor | Assets/Scripts/Core/Combat/Health.cs:8-23 | a fresh component is alive with no `OnDie` raised |
| HealthModel.Health.OnNetworkSpawn | Assets/Scripts/Core/Combat/Health.cs:26-31 | on the server health is set to the maximum; clients change nothing |
| HealthModel.Health.ModifyHealth | Assets/Scripts/Core/Combat/Health.cs:44-65 | the new state is `Modify` of the old, with `OnDie` counted when it fires |
| HealthModel.Health.TakeDamage | Assets/Scripts/Core/Combat/Health.cs:33-37 | damage is `ModifyHealth` of the 32-bit negation |
| HealthModel.Health.RestoreHealth | Assets/Scripts/Core/Combat/Health.cs:39-42 | restoring is `ModifyHealth` of the value |
| Enemies.Hit | Assets/Scripts/Core/Enemy/Enemy.cs:21-35 | a dead enemy is unchanged and reports false; otherwise health drops by the damage (32-bit) and the call reports true iff health reaches 0 or below |
| Enemies.DefeatedAtMostOnce | Assets/Scripts/Core/Enemy/Enemy.cs:23-34 | over any sequence of hits `TakeDamage` returns true at most once, exactly when a living enemy ends dead |
| Enemies.DefeatingHitIsFirst | Assets/Scripts/Core/Enemy/Enemy.cs:23-34 | before the defeating hit the enemy was alive with positive health, and that hit is the single defeat |
| Enemies.StillAlive | Assets/Scripts/Core/Enemy/Enemy.cs:23-34 | an enemy alive after a run of hits was alive, with positive health, after every prefix of that run |
| Enemies.Enemy.constructor | Assets/Scripts/Core/Enemy/Enemy.cs:9-11 | the enemy starts alive with the given health and damage and no defeat raised |
| Enemies.Enemy.GetDamage | Assets/Scripts/Core/Enemy/Enemy.cs:16-19 | returns the damage field |
| Enemies.Enemy.TakeDamage | Assets/Scripts/Core/Enemy/Enemy.cs:21-35 | the new state and result are `Hit` of the old state, with `OnDefeated` counted on defeat |
| BasicEnemies.NearestIndexFacts | Assets/Scripts/Core/Enemy/BasicEnemy.cs:375-392 | -1 iff no active player is within the detection radius; otherwise one in reach that is no farther than any other and strictly closer than every earlier one |
| BasicEnemies.Lookup | Assets/Scripts/Core/Enemy/BasicEnemy.cs:239-241 | finds the target player by id, or nothing when it is gone |
| BasicEnemies.HandleIdle | Assets/Scripts/Core/Enemy/BasicEnemy.cs:237-252 | without a target the nearest player is picked; a target means Chasing, otherwise Patrolling when patrol is enabled and not running, else Idle |
| BasicEnemies.PatrolLoop | Assets/Scripts/Core/Enemy/BasicEnemy.cs:407-458 | one pass of `PatrolBehavior`: it ends iff the loop test fails or a target is present (which clears `isPatrolling`); it enters the 2-second wait iff at the patrol point and not already waiting, turning the enemy Idle; otherwise it waits 0.1 s, playing Idle iff the agent is slow and not waiting |
| BasicEnemies.PatrolAfterPointWait | Assets/Scripts/Core/Enemy/BasicEnemy.cs:426-449 | after the 2-second wait the state is Patrolling whatever it was, the waiting flag drops and the pass ends in the 0.1-second wait |
| BasicEnemies.ResumePatrolStep | Assets/Scripts/Core/Enemy/BasicEnemy.cs:424-458 | a resumed patrol after the point wait always writes Patrolling; after the tick wait it tests the loop again |
| BasicEnemies.StartPatrol | Assets/Scripts/Core/Enemy/BasicEnemy.cs:403-407 | starting sets the handle and `isPatrolling`, and the first pass stops at once iff the loop test fails or a target is present |
| BasicEnemies.HandlePatrolling | Assets/Scripts/Core/Enemy/BasicEnemy.cs:254-267 | a missing handle starts the patrol; a present target then stops it, drops the handle and starts the chase; with a handle and no target nothing changes, even when the coroutine has already ended |
| BasicEnemies.FinishedPatrolStalls | Assets/Scripts/Core/Enemy/BasicEnemy.cs:254-267 | a patrol that ended by itself leaves the handle set, so a Patrolling enemy without a target stays exactly as it is frame after frame |
| BasicEnemies.ChaseOverwrittenByPatrol | Assets/Scripts/Core/Enemy/BasicEnemy.cs:423-427 | a Chasing enemy whose patrol is in its 2-second wait is set back to Patrolling when the wait ends; the next frame with the target chases again |
| BasicEnemies.ApplyKeepsStuckFlag | Assets/Scripts/Core/Enemy/BasicEnemy.cs:418-428 | once `isWaitingAtPatrolPoint` is raised outside the point wait, no frame, patrol wake-up or one-second re-target lowers it or enters the wait |
| BasicEnemies.StuckFlagStaysRaised | Assets/Scripts/Core/Enemy/BasicEnemy.cs:418-428 | the same for any sequence of frames, wake-ups and re-targets: the patrol never waits at a point again |
| BasicEnemies.StopInPointWaitSticks | Assets/Scripts/Core/Enemy/BasicEnemy.cs:260-265 | stopping the patrol for a target during the point wait leaves `isWaitingAtPatrolPoint` raised |
| BasicEnemies.ApplyKeepsHandle | Assets/Scripts/Core/Enemy/BasicEnemy.cs:254-267 | no frame, wake-up or re-target leaves a patrol suspended without a coroutine handle |
| BasicEnemies.HandleChasing | Assets/Scripts/Core/Enemy/BasicEnemy.cs:269-291 | a missing or inactive target adds the frame time and gives up at the chase timeout; a present one resets the timer and attacks within range |
| BasicEnemies.HandleAttacking | Assets/Scripts/Core/Enemy/BasicEnemy.cs:293-320 | no target means Idle and out of range means Chasing; a punch happens iff in range and the cooldown has passed, and it records the time |
| BasicEnemies.IdleSpotsPlayer | Assets/Scripts/Core/Enemy/BasicEnemy.cs:237-252 | an idle enemy with a player in reach starts chasing |
| BasicEnemies.SwingsAreSpaced | Assets/Scripts/Core/Enemy/BasicEnemy.cs:300-310 | over any run of frames, consecutive punches are at least the attack cooldown apart |
| BasicEnemies.BasicEnemy.constructor | Assets/Scripts/Core/Enemy/BasicEnemy.cs:10-61 | a spawned enemy is alive at 100 health, idle, without target, patrol or agent, visible and not yet punching |
| BasicEnemies.BasicEnemy.FindNearestPlayer | Assets/Scripts/Core/Enemy/BasicEnemy.cs:375-392 | the target becomes the nearest player in reach, or none |
| BasicEnemies.BasicEnemy.Update | Assets/Scripts/Core/Enemy/BasicEnemy.cs:201-235 | no handler runs when dead, without an agent or off the server; on the server the AI state becomes `Step` of the old one and a punch hits the target when it has health; the pose follows punch and agent speed |
| BasicEnemies.BasicEnemy.ResumePatrol | Assets/Scripts/Core/Enemy/BasicEnemy.cs:424-458 | the suspended patrol wakes up and the AI state becomes `ResumePatrolStep` of the old one; the pose follows its Idle call |
| BasicEnemies.BasicEnemy.InitializeNavMeshAgent | Assets/Scripts/Core/Enemy/BasicEnemy.cs:174-199 | with an agent it is enabled and marked initialised, and when patrol is enabled and not running the AI state becomes `StartPatrol` of the old one, then Patrolling |
| BasicEnemies.BasicEnemy.TakeDamage | Assets/Scripts/Core/Enemy/BasicEnemy.cs:462-479 | the health and defeat follow `Enemies.Hit`; a living enemy plays the hit animation; a defeat on the server runs `OnDefeated` |
| BasicEnemies.BasicEnemy.ResumeResetHitAnimation | Assets/Scripts/Core/Enemy/BasicEnemy.cs:364-372 | the hit animation ends |
| BasicEnemies.BasicEnemy.OnDefeated | Assets/Scripts/Core/Enemy/BasicEnemy.cs:481-505 | on the server the patrol stops (the waiting flag is left as it is), the agent halts, the enemy is hidden and the defeat is raised once per call; clients change nothing |
| BasicEnemies.BasicEnemy.Reset | Assets/Scripts/Core/Enemy/BasicEnemy.cs:507-544 | the enemy is alive with 100 health at the new position and visible; the agent restarts, or is initialised when the mesh is ready |
| Trees.HealthAfterExact | Assets/Scripts/Core/Tree/TreeHealth.cs:14-23 | without overflow, k interactions leave exactly `h - 25k` health |
| Trees.FallsAfter | Assets/Scripts/Core/Tree/TreeHealth.cs:6-30 | a tree falls once `25k >= h`; a default tree of 100 falls on the fourth interaction |
| Trees.TreeHealth.constructor | Assets/Scripts/Core/Tree/TreeHealth.cs:6-7 | the tree has the given maximum and no despawn requested |
| Trees.TreeHealth.Start | Assets/Scripts/Core/Tree/TreeHealth.cs:9-12 | health starts at the maximum |
| Trees.TreeHealth.TakeDamageServerRpc | Assets/Scripts/Core/Tree/TreeHealth.cs:20-31 | health drops by exactly the damage (32-bit), and a despawn is requested iff health is 0 or below |
| Trees.TreeHealth.Interact | Assets/Scripts/Core/Tree/TreeHealth.cs:14-18 | every interaction deals exactly 25 damage |
| Melee.MovementAnimation | Assets/Scripts/Core/Combat/MeleeCombat/MeleeCombatController.cs:99-116 | running iff shift and W; walking iff W without shift, or shift with A, S or D but not W; idle otherwise |
| Melee.ComboAlternates | Assets/Scripts/Core/Combat/MeleeCombat/MeleeCombatController.cs:149-158 | the attack count alternates 0, 1, 0, …, so accepted attacks alternate ATTACK1 and ATTACK2 |
| Melee.MeleeCombatController.constructor | Assets/Scripts/Core/Combat/MeleeCombat/MeleeCombatController.cs:132-134 | no animation has played, the controller is ready, not attacking and at combo step 0 |
| Melee.MeleeCombatController.ChangeAnimationState | Assets/Scripts/Core/Combat/MeleeCombat/MeleeCombatController.cs:89-97 | asking for the current state is a no-op; otherwise the new state is cross-faded and recorded |
| Melee.MeleeCombatController.SetAnimations | Assets/Scripts/Core/Combat/MeleeCombat/MeleeCombatController.cs:99-116 | while attacking nothing changes; otherwise the movement animation is played |
| Melee.MeleeCombatController.Attack | Assets/Scripts/Core/Combat/MeleeCombat/MeleeCombatController.cs:136-159 | does nothing unless ready and not attacking; otherwise locks the attack, schedules the reset and the raycast, plays the combo animation and advances the combo |
| Melee.MeleeCombatController.ResumeResetAttack | Assets/Scripts/Core/Combat/MeleeCombat/MeleeCombatController.cs:161-165 | the attack lock is released |
| Melee.MeleeCombatController.ResumeAttackRaycast | Assets/Scripts/Core/Combat/MeleeCombat/MeleeCombatController.cs:167-183 | a hit spawns one hit effect |
| Melee.MeleeCombatController.Update | Assets/Scripts/Core/Combat/MeleeCombat/MeleeCombatController.cs:66-73 | a click attacks only when ready and not attacking; when not attacking the movement animation shows |
| Launching.ChargeStep | Assets/Scripts/Core/Player/Arrow/ProjectileLauncher.cs:221-222 | one charging frame stays within [0, max], never lowers the charge unless capped, and adds exactly the increment when it fits |
| Common.ClampReal | Assets/Scripts/Core/Player/Arrow/ProjectileLauncher.cs:222 | the `float` overload of `Mathf.Clamp`: the result lies in [min, max] and equals the value when it is already inside |
| Launching.ChargeAfterFrames | Assets/Scripts/Core/Player/Arrow/ProjectileLauncher.cs:209-222 | charging from 0 for n frames gives `increment * n`, capped at the maximum |
| Launching.SpeedMultiplier | Assets/Scripts/Core/Player/Arrow/ProjectileLauncher.cs:253 | the multiplier `1 + 2*charge/max` lies in [1, 3], is 1 at no charge and 3 at full charge |
| Launching.SpeedMultiplierMonotone | Assets/Scripts/Core/Player/Arrow/ProjectileLauncher.cs:253 | more charge never gives a slower projectile |
| Launching.ArrowWallet.constructor | Assets/Scripts/Core/Arrows/ArrowWallet.cs:7 | the wallet holds the given 32-bit arrow count |
| Launching.ArrowWallet.SpendCoins | Assets/Scripts/Core/Arrows/ArrowWallet.cs:9-12 | the arrows drop by the cost, with 32-bit wrap-around |
| BowLaunchers.ProjectileLauncher.constructor | Assets/Scripts/Core/Player/Arrow/ProjectileLauncher.cs:22-48 | a fresh launcher can fire, holds no charge and is not resetting |
| BowLaunchers.ProjectileLauncher.OnNetworkSpawn | Assets/Scripts/Core/Player/Arrow/ProjectileLauncher.cs:65-70 | only the owner subscribes to fire input |
| BowLaunchers.ProjectileLauncher.OnNetworkDespawn | Assets/Scripts/Core/Player/Arrow/ProjectileLauncher.cs:72-77 | the owner unsubscribes |
| BowLaunchers.ProjectileLauncher.OnPrimaryFire | Assets/Scripts/Core/Player/Arrow/ProjectileLauncher.cs:65-77 | fire input reaches `HandleFire` only while subscribed; a jammed bow stays jammed and requests no shot |
| BowLaunchers.ProjectileLauncher.HandleFire | Assets/Scripts/Core/Player/Arrow/ProjectileLauncher.cs:79-101 | without the bow in hand nothing changes; a press during a reset is remembered and does not charge; a release empties the charge and fires iff `Fires` |
| BowLaunchers.ProjectileLauncher.StartCharging | Assets/Scripts/Core/Player/Arrow/ProjectileLauncher.cs:103-114 | charging starts unless the bow is resetting |
| BowLaunchers.ProjectileLauncher.StopCharging | Assets/Scripts/Core/Player/Arrow/ProjectileLauncher.cs:116-158 | a no-op unless charging; a release with enough charge, `canFire` and arrows requests a shot and disables firing; the charge empties and a reset starts only with a bow transform; without one the bow stays jammed |
| BowLaunchers.ProjectileLauncher.SpawnDummyProjectile | Assets/Scripts/Core/Player/Arrow/ProjectileLauncher.cs:234-256 | a local projectile with the charge's speed multiplier and a muzzle flash |
| BowLaunchers.ProjectileLauncher.ResetBowScale | Assets/Scripts/Core/Player/Arrow/ProjectileLauncher.cs:313-321 | a reset starts only when there is a bow transform |
| BowLaunchers.ProjectileLauncher.Update | Assets/Scripts/Core/Player/Arrow/ProjectileLauncher.cs:160-232 | the flash timer runs down; once a reset completes firing is enabled and charging resumes iff the button was held; a charging bow gains `ChargeStep`; a jammed bow stays jammed |
| BowLaunchers.ProjectileLauncher.SpawnServerProjectileServerRpc | Assets/Scripts/Core/Player/Arrow/ProjectileLauncher.cs:258-284 | with too few arrows nothing happens; otherwise exactly the cost is spent and a projectile spawned |
| BowLaunchers.ProjectileLauncher.SpawnServerProjectileClientRpc | Assets/Scripts/Core/Player/Arrow/ProjectileLauncher.cs:286-292 | only non-owners spawn the dummy projectile |
| PlayerLaunchers.ProjectileLauncher.constructor | Assets/Scripts/Core/Player/ProjectileLauncher.cs:21-35 | a fresh launcher has no cooldown, no charge and no flash |
| PlayerLaunchers.ProjectileLauncher.OnNetworkSpawn | Assets/Scripts/Core/Player/ProjectileLauncher.cs:48-53 | only the owner subscribes to fire input |
| PlayerLaunchers.ProjectileLauncher.OnNetworkDespawn | Assets/Scripts/Core/Player/ProjectileLauncher.cs:55-60 | the owner unsubscribes |
| PlayerLaunchers.ProjectileLauncher.OnPrimaryFire | Assets/Scripts/Core/Player/ProjectileLauncher.cs:48-60 | fire input reaches `HandleFire` only while subscribed |
| PlayerLaunchers.ProjectileLauncher.HandleFire | Assets/Scripts/Core/Player/ProjectileLauncher.cs:62-77 | without the bow in hand nothing changes; a press starts charging; a release empties the charge and fires iff `Fires` |
| PlayerLaunchers.ProjectileLauncher.StartCharging | Assets/Scripts/Core/Player/ProjectileLauncher.cs:79-83 | charging starts |
| PlayerLaunchers.ProjectileLauncher.StopCharging | Assets/Scripts/Core/Player/ProjectileLauncher.cs:85-118 | a no-op unless charging; a release with enough charge, no cooldown left and enough arrows fires and restarts the `1/fireRate` cooldown; two shots are always at least that cooldown apart |
| PlayerLaunchers.ProjectileLauncher.SpawnDummyProjectile | Assets/Scripts/Core/Player/ProjectileLauncher.cs:164-179 | a local projectile with the charge's speed multiplier and a muzzle flash |
| PlayerLaunchers.ProjectileLauncher.Update | Assets/Scripts/Core/Player/ProjectileLauncher.cs:120-162 | the flash runs down and hides; the owner's cooldown decreases only while positive; a charging bow gains `ChargeStep` |
| PlayerLaunchers.ProjectileLauncher.SpawnServerProjectileServerRpc | Assets/Scripts/Core/Player/ProjectileLauncher.cs:181-200 | with too few arrows nothing happens; otherwise exactly the cost is spent and a projectile spawned |
| PlayerLaunchers.ProjectileLauncher.SpawnServerProjectileClientRpc | Assets/Scripts/Core/Player/ProjectileLauncher.cs:202-208 | only non-owners spawn the dummy projectile |
| NavMesh.ReadyAfter | Assets/Scripts/Core/Navigation/DynamicNavMeshBuilder.cs:152-171 | after a build attempt the mesh is ready iff it was, or both generators are done, or the build is forced |
| NavMesh.LatchBuildsAtMostOnce | Assets/Scripts/Core/Navigation/DynamicNavMeshBuilder.cs:156-166 | however the flags arrive, the readiness latch builds at most once, never once ready, and exactly when it ends ready having started unready |
| NavMesh.DynamicNavMeshBuilder.constructor | Assets/Scripts/Core/Navigation/DynamicNavMeshBuilder.cs:13-23 | nothing is ready, subscribed or built |
| NavMesh.DynamicNavMeshBuilder.Start | Assets/Scripts/Core/Navigation/DynamicNavMeshBuilder.cs:44-53 | the delayed rebuild is scheduled iff `forceRebuildOnStart` |
| NavMesh.DynamicNavMeshBuilder.OnEnable | Assets/Scripts/Core/Navigation/DynamicNavMeshBuilder.cs:55-69 | subscribes, catches up with finished generators, builds if both are done and schedules the timeout |
| NavMesh.DynamicNavMeshBuilder.OnDisable | Assets/Scripts/Core/Navigation/DynamicNavMeshBuilder.cs:71-82 | unsubscribes and cancels the timeout |
| NavMesh.DynamicNavMeshBuilder.ResumeForceRebuildAfterDelay | Assets/Scripts/Core/Navigation/DynamicNavMeshBuilder.cs:84-96 | builds, marks ready and raises the event unconditionally, so the event can fire more than once |
| NavMesh.DynamicNavMeshBuilder.ResumeForceBuildAfterTimeout | Assets/Scripts/Core/Navigation/DynamicNavMeshBuilder.cs:98-108 | forces a build only if still not ready; afterwards the mesh is ready |
| NavMesh.DynamicNavMeshBuilder.RaiseTerrainGenerationComplete | Assets/Scripts/Core/Navigation/DynamicNavMeshBuilder.cs:60-74 | the terrain event reaches the builder only while subscribed |
| NavMesh.DynamicNavMeshBuilder.RaiseTreeGenerationComplete | Assets/Scripts/Core/Navigation/DynamicNavMeshBuilder.cs:61-75 | the trees event reaches the builder only while subscribed |
| NavMesh.DynamicNavMeshBuilder.OnTerrainGenerated | Assets/Scripts/Core/Navigation/DynamicNavMeshBuilder.cs:111-116 | sets the terrain flag, then attempts a build |
| NavMesh.DynamicNavMeshBuilder.OnTreesGenerated | Assets/Scripts/Core/Navigation/DynamicNavMeshBuilder.cs:119-124 | sets the trees flag, then attempts a build |
| NavMesh.DynamicNavMeshBuilder.CheckIfGeneratorsAlreadyCompleted | Assets/Scripts/Core/Navigation/DynamicNavMeshBuilder.cs:127-149 | adopts the generators' completion flags, then attempts a build |
| NavMesh.DynamicNavMeshBuilder.BuildNavMeshIfReady | Assets/Scripts/Core/Navigation/DynamicNavMeshBuilder.cs:152-171 | builds and raises the event only when both are done or forced, and only if not yet ready; ready afterwards iff `ReadyAfter` |
| NavMesh.DynamicNavMeshBuilder.BuildNavMesh | Assets/Scripts/Core/Navigation/DynamicNavMeshBuilder.cs:173-205 | every outcome but a successful surface build falls back, which marks the mesh ready |
| NavMesh.DynamicNavMeshBuilder.FallbackNavMeshBuild | Assets/Scripts/Core/Navigation/DynamicNavMeshBuilder.cs:207-214 | the mesh is taken to be ready |
| Auth.AttemptState | Assets/Scripts/Networking/Client/AuthenticationWrapper.cs:56-74 | an attempt gives Authenticated iff signed in and authorized, Error iff either exception is thrown, and stays Authenticating otherwise |
| Auth.AsWrittenSingleAttempt | Assets/Scripts/Networking/Client/AuthenticationWrapper.cs:46-85 | as written: with `maxRetries <= 0` no call and the state stays Authenticating; otherwise exactly one call, then Authenticated or TimeOut |
| Auth.AsWrittenGivesUpAfterOneFailure | Assets/Scripts/Networking/Client/AuthenticationWrapper.cs:51-84 | one failure followed by a success: as written TimeOut after one call, corrected Authenticated after two |
| Auth.AttemptsOutcome | Assets/Scripts/Networking/Client/AuthenticationWrapper.cs:51-86 | the corrected retries succeed iff some attempt in range succeeds, stop at the first success, and time out after all attempts otherwise |
| Auth.AttemptsAfterFailure | Assets/Scripts/Networking/Client/AuthenticationWrapper.cs:76-85 | a failed attempt either times out at the last retry or hands over to the next retry with one more call |
| Auth.CorrectedSignInOutcome | Assets/Scripts/Networking/Client/AuthenticationWrapper.cs:43-88 | the corrected sign-in authenticates iff one of the first `maxRetries` calls succeeds, times out after all of them otherwise, and makes no call for `maxRetries <= 0` |
| Auth.AuthenticationWrapper.constructor | Assets/Scripts/Networking/Client/AuthenticationWrapper.cs:9 | the state starts NotAuthenticated |
| Auth.AuthenticationWrapper.DoAuth | Assets/Scripts/Networking/Client/AuthenticationWrapper.cs:11-31 | already Authenticated returns at once; already Authenticating waits; otherwise the corrected sign-in runs and its state is returned |
| Auth.AuthenticationWrapper.PollAuthenticating | Assets/Scripts/Networking/Client/AuthenticationWrapper.cs:33-41 | the wait continues exactly while the state is Authenticating or NotAuthenticated |
| Auth.AuthenticationWrapper.SignInAnonymouslyAsWritten | Assets/Scripts/Networking/Client/AuthenticationWrapper.cs:43-88 | the loop as written makes at most one sign-in call |
| Auth.AuthenticationWrapper.SignInAnonymously | Assets/Scripts/Networking/Client/AuthenticationWrapper.cs:43-88 | the loop with the evident intent ends in `CorrectedSignIn`, whose meaning is `CorrectedSignInOutcome` |
| Seeds.ResolveSeed | Assets/Scripts/Core/TerrainGenerator/MapGenerator.cs:418-440 | a positive manager seed wins, then a positive network seed, else -1 |
| Seeds.SanitizeSeed | Assets/Scripts/Core/TerrainGenerator/NetworkTerrainManager.cs:260-264 | a non-positive seed is replaced by 12345, so the result is always positive |
| Seeds.DisplaySeed | Assets/Scripts/Core/TerrainGenerator/TerrainSeedManager.cs:53-59 | the network seed if positive, else the manager's; shown only when positive |
| Seeds.MapChunkSize | Assets/Scripts/Core/TerrainGenerator/MapGenerator.cs:67-80 | 95 with flat shading, 239 without |
| Seeds.ThreadSeed | Assets/Scripts/Core/TerrainGenerator/MapGenerator.cs:186-198 | a non-positive thread seed falls back to the current seed, then to 12345; the result is positive |
| Seeds.LobbySeedAsWritten | Assets/Scripts/Core/TerrainGenerator/NetworkTerrainManager.cs:153-174 | as written: the custom seed when positive, otherwise the draw from [0, 100000), which can be 0 |
| Seeds.LobbySeedCanBeRejected | Assets/Scripts/Core/TerrainGenerator/NetworkTerrainManager.cs:169-183 | a draw of 0 gives lobby seed 0, which every seed consumer rejects |
| Seeds.LobbySeed | Assets/Scripts/Core/TerrainGenerator/NetworkTerrainManager.cs:153-174 | corrected: the draw comes from [1, 100000), so the lobby seed is always positive |
| Seeds.InvalidSetSeedResolvesToDefault | Assets/Scripts/Core/TerrainGenerator/TerrainSeedManager.cs:64-71 | after `SetSeed` with a non-positive seed the manager's seed and the custom seed disagree, and the seed resolves to 12345 |
| Seeds.SeedStatics.constructor | Assets/Scripts/Core/TerrainGenerator/TerrainSeedManager.cs:14-16 | every shared seed starts at -1 with no manager instance |
| Seeds.SeedStatics.SetCustomSeed | Assets/Scripts/Core/TerrainGenerator/NetworkTerrainManager.cs:258-270 | the custom and network seeds both become the sanitized seed |
| Seeds.SeedStatics.UpdateSeedFromLobby | Assets/Scripts/Core/TerrainGenerator/TerrainSeedManager.cs:84-95 | a non-positive seed changes nothing; otherwise every shared seed agrees on it |
| Seeds.MapGenerator.constructor | Assets/Scripts/Core/TerrainGenerator/MapGenerator.cs:40-41 | the current seed starts at 12345, not initialized and not complete |
| Seeds.MapGenerator.UpdateCurrentSeedFromNetworkManager | Assets/Scripts/Core/TerrainGenerator/MapGenerator.cs:330-386 | a positive resolved seed always wins; the noise seed is used only before initialization; afterwards the seed is initialized and the noise seed follows the current seed |
| Seeds.MapGenerator.GenerateMapData | Assets/Scripts/Core/TerrainGenerator/MapGenerator.cs:228-245 | the main-thread generation refreshes the seed first and always uses a positive seed |
| Seeds.MapGenerator.InitializeMapSeed | Assets/Scripts/Core/TerrainGenerator/MapGenerator.cs:390-415 | the seed is refreshed and, when both managers exist in the scene, copied to the noise settings |
| Seeds.MapGenerator.NotifyAllChunksCreated | Assets/Scripts/Core/TerrainGenerator/MapGenerator.cs:443-460 | generation is marked complete and the completion event is raised at most once |
| Seeds.SetGeneratorSeeds | Assets/Scripts/Core/TerrainGenerator/NetworkTerrainManager.cs:196-225 | every live generator takes the seed as its current seed and, with noise settings, as its noise seed |
| Seeds.TerrainSeedManager.constructor | Assets/Scripts/Core/TerrainGenerator/TerrainSeedManager.cs:9-11 | a manager with the given custom-seed settings, not destroyed |
| Seeds.TerrainSeedManager.Awake | Assets/Scripts/Core/TerrainGenerator/TerrainSeedManager.cs:18-45 | a second instance destroys itself; otherwise the custom seed is used iff enabled and positive, else the draw, and every shared seed agrees on it |
| Seeds.TerrainSeedManager.OnGUI | Assets/Scripts/Core/TerrainGenerator/TerrainSeedManager.cs:48-61 | the display seed is shown only when enabled and positive |
| Seeds.TerrainSeedManager.SetSeed | Assets/Scripts/Core/TerrainGenerator/TerrainSeedManager.cs:64-71 | the manager takes the seed as given, even when not positive, while the custom seed is sanitized |
| Seeds.TerrainSeedManager.UseRandomSeed | Assets/Scripts/Core/TerrainGenerator/TerrainSeedManager.cs:74-81 | the custom seed is switched off and every shared seed agrees on the draw |
| Seeds.NetworkTerrainManager.constructor | Assets/Scripts/Core/TerrainGenerator/NetworkTerrainManager.cs:8-16 | no seed is ready or published, nothing is subscribed and no generator is found |
| Seeds.NetworkTerrainManager.OnNetworkSpawn | Assets/Scripts/Core/TerrainGenerator/NetworkTerrainManager.cs:101-150 | the server uses the custom seed when positive, else the draw, and publishes it; a client adopts the networked value |
| Seeds.NetworkTerrainManager.OnNetworkDespawn | Assets/Scripts/Core/TerrainGenerator/NetworkTerrainManager.cs:234-237 | unsubscribes from seed changes |
| Seeds.NetworkTerrainManager.ResumeWaitForMapGenerator | Assets/Scripts/Core/TerrainGenerator/NetworkTerrainManager.cs:41-94 | the found generator is kept, and on the server its noise seed becomes the network seed and the seed is ready |
| Seeds.NetworkTerrainManager.SetSeedFromLobby | Assets/Scripts/Core/TerrainGenerator/NetworkTerrainManager.cs:177-226 | a non-positive seed changes nothing; otherwise it becomes the network seed (on the server also the networked value) and every generator's seed |
| Seeds.NetworkTerrainManager.OnSeedChanged | Assets/Scripts/Core/TerrainGenerator/NetworkTerrainManager.cs:239-254 | the network seed becomes the new value; a found generator with noise settings redraws and the seed is ready |
| Seeds.SeedDirectInjector.constructor | Assets/Scripts/Core/TerrainGenerator/SeedDirectInjector.cs:9-10 | the injector has the given check interval and has not checked yet |
| Seeds.SeedDirectInjector.GetCurrentSeedValue | Assets/Scripts/Core/TerrainGenerator/SeedDirectInjector.cs:57-69 | the same priority as `ResolveSeed`: manager seed, then network seed, else -1 |
| Seeds.SeedDirectInjector.ApplySeedToAllMapGenerators | Assets/Scripts/Core/TerrainGenerator/SeedDirectInjector.cs:27-55 | nothing changes without a positive seed; otherwise every generator with noise settings ends with that seed |
| Seeds.SeedDirectInjector.Start | Assets/Scripts/Core/TerrainGenerator/SeedDirectInjector.cs:12-15 | applies the seed once |
| Seeds.SeedDirectInjector.Update | Assets/Scripts/Core/TerrainGenerator/SeedDirectInjector.cs:17-25 | re-applies only when the check interval has passed, then records the time |
| LogScreens.Last | Assets/Scripts/UI/LogScreen.cs:180-183 | the newest n lines of a queue |
| LogScreens.EnqueueIsLast | Assets/Scripts/UI/LogScreen.cs:177-183 | one enqueue with the drop-oldest rule keeps the newest `maxStoredLogs` lines |
| LogScreens.EnqueueAllKeepsNewest | Assets/Scripts/UI/LogScreen.cs:173-185 | enqueuing a batch keeps the newest `maxStoredLogs` lines of old queue plus batch, so the queue never exceeds the bound |
| LogScreens.EnqueueKeepsDisplayLines | Assets/Scripts/UI/LogScreen.cs:175-183 | the queue stays within its bound and holds only non-empty lines without newlines |
| LogScreens.EntryLinesShape | Assets/Scripts/UI/LogScreen.cs:151-175 | an entry's first line starts with the time stamp and colour tag, its last ends with `</color>`, and an error or exception spans at least two lines |
| LogScreens.FirstPieceHasHeader | Assets/Scripts/UI/LogScreen.cs:169-172 | the first line of an entry starts with its time stamp and colour tag |
| LogScreens.LastPieceClosesColor | Assets/Scripts/UI/LogScreen.cs:169-172 | the last line of an entry ends with `</color>` |
| LogScreens.ErrorSpansTwoPieces | Assets/Scripts/UI/LogScreen.cs:156-172 | an error or exception message splits into at least two pieces |
| LogScreens.LogScreen.constructor | Assets/Scripts/UI/LogScreen.cs:17-20 | the queue starts empty and not initialized |
| LogScreens.LogScreen.OnEnable | Assets/Scripts/UI/LogScreen.cs:133-140 | subscribes to log messages |
| LogScreens.LogScreen.OnDisable | Assets/Scripts/UI/LogScreen.cs:142-149 | unsubscribes |
| LogScreens.LogScreen.ReceiveLog | Assets/Scripts/UI/LogScreen.cs:137-146 | a message reaches `HandleLog` only while subscribed |
| LogScreens.LogScreen.HandleLog | Assets/Scripts/UI/LogScreen.cs:151-188 | the entry's non-empty lines are enqueued with the bound and the display is refreshed |
| LogScreens.LogScreen.EnqueueLines | Assets/Scripts/UI/LogScreen.cs:173-185 | the loop skips empty pieces and enqueues the rest in order |
| LogScreens.LogScreen.EnqueueLine | Assets/Scripts/UI/LogScreen.cs:177-183 | appends the line and drops the oldest when over the bound |
| LogScreens.LogScreen.UpdateLogDisplay | Assets/Scripts/UI/LogScreen.cs:190-203 | the text is the queued lines joined by newlines, which split back into exactly those lines |
| ItemInfo.GetInfoDisplayText | Assets/Scripts/Core/Inventory/ConsumableItem.cs:10-18 | starts with the item's name, ends with a newline and splits into the kind's lines plus a final empty piece |
| ItemInfo.StackedInfoShowsStackLimit | Assets/Scripts/Core/Inventory/MineItem.cs:10-18 | consumable and mine descriptions have three lines: name, green use line, and a stack line whose number parses back to the stack limit |
| ItemInfo.UnstackedInfoHasTwoLines | Assets/Scripts/Core/Inventory/ItemTypes/CraftableItem.cs:10-18 | craftable, crafting and wood descriptions are exactly the name and the use line, each newline-terminated |
| ItemInfo.InfoShape | Assets/Scripts/Core/Inventory/ConsumableItem.cs:10-18 | a description starts with its first line and ends with a newline, and newline-free lines split back out of it |
| ItemInfo.StackLineParses | Assets/Scripts/Core/Inventory/ConsumableItem.cs:15 | the number after `Max Stack: ` reads back as the stack limit |
| ItemInfo.DefaultDescription | Assets/Scripts/Core/Inventory/ConsumableItem.cs:9-18 | with the use text each kind ships with (`Does something...`, `Mine something...`, …), a single-line name gives a description of four lines for consumables and mine items and three otherwise: the name, the green use line and, for the stacked kinds, the stack line, then an empty piece |
| Common.Split | Assets/Scripts/UI/LogScreen.cs:172 | splitting yields one more piece than separators, none containing the separator |
| Common.JoinSplit | Assets/Scripts/UI/LogScreen.cs:172 | joining the pieces of any text split on a separator, with that separator, gives back the text: the `Split('\n')` of a formatted log entry loses nothing |
| Common.SplitJoin | Assets/Scripts/UI/LogScreen.cs:194 | splitting a newline-join of one or more newline-free lines gives back the lines; `LogScreen.UpdateLogDisplay` relies on it |
| Common.IntToStringRoundTrip | Assets/Scripts/Core/Inventory/HotbarSlot.cs:84 | an integer's decimal text parses back to it |
| Common.Wrap32 | Assets/Scripts/Core/Enemy/Enemy.cs:25 | the result is the 32-bit two's-complement value congruent to the input |

## Left out

- Rendering, animation clips, audio, camera and physics are left out: sprites, icons, cross-fade timing, raycasts, rigidbody launch forces, the bow-scale lerp (`UpdateBowScale`) and the muzzle-flash object. Only the flags and counters they drive are modelled.
- `Debug.Log` output is left out.
- Events are not modelled as objects. `OnItemsUpdated` is `ItemContainer.itemsUpdated`, and `OnDie`, `OnDefeated`, `OnNavMeshReady` and `OnTerrainGenerationComplete` are counters too: each counts how often the event is raised. `OnGameEnded` is not counted: `CupManager` calls its own handler, `StartCheckGameEndCoroutine`, directly. The other subscriber, `PlayerStatisticsController`, reports the owner's stats during the event, and `HandleBossDefeated` clears the received stats on the next line, so its report is discarded at once and it is left out.
- ItemContainers.ItemContainer.GetTotalQuantity: the sum is an unbounded integer. A C# `int` would wrap past 2^31 - 1, which needs more than 2^31 items of one kind.
- ItemContainers.ItemContainer.AddItem: requires a non-null item. With a null item the source throws as soon as it reads the stack limit at the first empty slot. Every game caller passes a loaded item. Only the editor's `Inventory.TestAdd` can pass the default empty slot. That exception path is not modelled.
- Crafting.ConsumeTotals: the exact drop per material, and the other consume lemmas, are proved only for recipes whose material names are distinct. The check loop (CraftingSystem.cs:62-72) tests each material against the whole inventory, so a recipe that repeats a material passes with less than the sum of its amounts and the removals then take what is there (`Crafting.RepeatedMaterialUnderConsumes`). No recipe asset is part of this model, so whether any repeats a material is not known, and this is not listed as a finding.
- Crafting.CraftingSystem.AttemptCraftCorrected: its own contract, `Craft`, covers every recipe; the reading "each material drops by exactly its amount" holds only for distinct material names, as the line above says.
- Cups.CupManager.HandleBossDefeated: the order of the source is kept and proved as a property, not listed as a finding. `gameEnded` is set at CupManager.cs:64 before `OnGameEnded` is raised at :65, and `StartCheckGameEndCoroutine`, the only path to the delayed check (:207-225), returns at :209 when the flag is set. So no check is scheduled, and `ResumeCheckGameEnd` and `DistributeCupsAtGameEnd` are modelled as the code the coroutine would run. The intended order is not evident: raising the event first would schedule the check, but `receivedStats.Clear()` at :66 would still drop the stats reported during the event.
- Network replication (`NetworkVariable` delivery, RPC transport, ownership) is left out. A client's view of a networked value is a parameter, and each RPC is the method that runs on the receiving instance.
- Frame times, `Random.Range` draws, `DateTime` stamps, scene look-ups (`FindObjectsOfType`, `FindFirstObjectByType`, `Resources.Load`) and the Unity Authentication service are parameters or oracles. Their nondeterminism is not modelled.
- Floats are `real`s. Single-precision rounding is not modelled.
- `BasicEnemy`'s steering is left out: the random patrol point (`Random.insideUnitSphere`, `NavMesh.SamplePosition`, `SetDestination`) and `ChasePlayer`. Whether the agent has reached its patrol point and how fast it moves are frame inputs. `PatrolBehavior`'s state changes are modelled. Also left out are `Awake`/`OnEnable`/`OnDisable`/`OnNetworkSpawn`/`WaitForNavMeshAndInitialize`, which wire events and wait for the mesh. Their result, an initialised agent, is what `InitializeNavMeshAgent` and `Reset` model. On the server `OnNetworkSpawn` also starts a one-second `InvokeRepeating` of `FindNearestPlayer`. That timer is not a member: `FindNearestPlayer` may be called between any two frames, and the trace lemmas include it as the `Rescan` event.
- The terrain noise, falloff and mesh generation in `MapGenerator` are left out, as are its worker threads and locks: generation is sequential here. `RequestMapData`'s thread seed is `Seeds.ThreadSeed` of the value handed to the thread.
- `NetworkTerrainManager.WaitForMapGenerator` is one `ResumeWaitForMapGenerator` step per search that finds a generator. The ten-retry limit and the not-found path are left out.
- `CraftingSystem`'s UI (`Start`, `Update`, `PopulateCraftingUI`) and `HotbarSlot.UseSlot` are left out. `UseSlot` has an empty body.
- The `LogScreen` scrolling, zoom and font-size handling is left out.
- `Environment.NewLine` is modelled as `"\n"`.
- LogScreens.EntryLinesShape: assumes the time stamp contains no newline, as `HH:mm:ss` never does.
- The random choice of 5 achievements in `DistributeCupsAtGameEnd` is an input sequence of (achievement, reward) pairs.
- Launcher and health parameters that would make the source divide by zero or misbehave are excluded by `requires`: a non-positive `fireRate` or `maxChargeValue`, and values outside the 32-bit range.
- Auth.AuthenticationWrapper.DoAuth: runs the corrected sign-in loop; the loop as written is `SignInAnonymouslyAsWritten` (see Findings).
- BowLaunchers.ProjectileLauncher.StopCharging: proves that a bow without a bow transform is jammed after its first shot (`Jammed` is kept). This is stated as a property, not a finding, because that configuration may simply be unsupported.

## Findings

| source | as written | input that shows it | evidently intended | confidence | as-written member | corrected member |
|---|---|---|---|---|---|---|
| Assets/Scripts/Core/Inventory/ItemContainer.cs:88-100 | `RemoveItem` decrements a stack that holds more than the request but does not stop, so every later stack of the item is decremented too | two stacks of 5 wood, remove 3: the stacks become 2 and 2 (4 removed) | stop once the request is met: 2 and 5 (3 removed) | not executed | ItemContainers.ItemContainer.RemoveItem, ContainerSpec.RemoveScanOverRemoves, Crafting.CraftingSystem.AttemptCraft, Crafting.CraftAsWrittenOverConsumes | ItemContainers.ItemContainer.RemoveItemCorrected, ContainerSpec.RemoveUpToExact, Crafting.CraftingSystem.AttemptCraftCorrected, Crafting.ConsumeTotals |
| Assets/Scripts/Networking/Client/AuthenticationWrapper.cs:80-84 | any attempt that does not authenticate sets `TimeOut`, which ends the `while` loop, so only one sign-in call is ever made | `maxRetries` 5, first call not authorized, second would succeed: TimeOut after 1 call | retry up to `maxRetries` times: Authenticated after 2 calls | not executed | Auth.AuthenticationWrapper.SignInAnonymouslyAsWritten, Auth.AsWrittenGivesUpAfterOneFailure | Auth.AuthenticationWrapper.SignInAnonymously, Auth.CorrectedSignInOutcome |
| Assets/Scripts/Core/TerrainGenerator/NetworkTerrainManager.cs:169 | `GenerateSeedForNewLobby` draws from `Random.Range(0, 100000)`, which can return 0, a seed every consumer rejects as invalid | no custom seed and a draw of 0: lobby seed 0 | draw from [1, 100000) like the runtime seed draws (NetworkTerrainManager.cs:121, TerrainSeedManager.cs:40, 77) | not executed | Seeds.LobbySeedAsWritten, Seeds.LobbySeedCanBeRejected | Seeds.LobbySeed |
