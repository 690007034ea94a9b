/** Crafting: a recipe names materials by their asset name and an amount of
    each. `AttemptCraft` first checks every material, then removes them one
    after the other, then adds one crafted item if the catalogue of craftable
    assets has one under the recipe's item name. */
module Crafting {
  import opened Common
  import opened Items
  import opened ContainerSpec
  import opened ItemContainers

  datatype MaterialRequirement = MaterialRequirement(materialName: string, amount: int)

  datatype CraftingRecipe = CraftingRecipe(itemName: string, materials: seq<MaterialRequirement>)

  /** The slot holds an item whose asset name is `itemName`. */
  predicate NamedIn(slot: ItemSlot, itemName: string) {
    slot.item.Some? && slot.item.value.objectName == itemName
  }

  /** `FindItemByName(itemName)`: the item of the first slot whose asset name
      matches, or nothing. */
  function FindItemByName(s: seq<ItemSlot>, itemName: string): (r: Option<Item>)
    ensures r.None? <==> forall k :: 0 <= k < |s| ==> !NamedIn(s[k], itemName)
    ensures r.Some? ==> r.value.objectName == itemName
    ensures r.Some? ==> exists k :: 0 <= k < |s| && s[k].item == r &&
                                    (forall j :: 0 <= j < k ==> !NamedIn(s[j], itemName))
  {
    if s == [] then None
    else if NamedIn(s[0], itemName) then s[0].item
    else
      var r := FindItemByName(s[1..], itemName);
      assert forall k :: 1 <= k < |s| ==> s[k] == s[1..][k - 1];
      if r.Some? then
        var k :| 0 <= k < |s[1..]| && s[1..][k].item == r && forall j :: 0 <= j < k ==> !NamedIn(s[1..][j], itemName);
        assert s[k + 1].item == r;
        r
      else r
  }

  /** `HasSufficientMaterial` for one requirement, after the name lookup. */
  predicate Sufficient(s: seq<ItemSlot>, m: MaterialRequirement) {
    var it := FindItemByName(s, m.materialName);
    it.Some? && Total(s, it.value) >= m.amount
  }

  /** Every requirement of the recipe passes the check loop. */
  predicate CanCraft(s: seq<ItemSlot>, materials: seq<MaterialRequirement>) {
    forall j :: 0 <= j < |materials| ==> Sufficient(s, materials[j])
  }

  /** One pass of the removal loop: look the material up again in the current
      slots and remove the amount (nothing happens when it is not found). */
  function ConsumeOne(s: seq<ItemSlot>, m: MaterialRequirement): seq<ItemSlot> {
    RemoveUpToAt(s, FindItemByName(s, m.materialName), m.amount, 0)
  }

  function Consume(s: seq<ItemSlot>, materials: seq<MaterialRequirement>): seq<ItemSlot>
    decreases |materials|
  {
    if materials == [] then s else Consume(ConsumeOne(s, materials[0]), materials[1..])
  }

  /** The slots after `AttemptCraft(recipe)`, where `crafted` is what loading
      the craftable asset named `recipe.itemName` gave. */
  function Craft(s: seq<ItemSlot>, recipe: CraftingRecipe, crafted: Option<Item>): seq<ItemSlot> {
    if !CanCraft(s, recipe.materials) then s
    else
      var c := Consume(s, recipe.materials);
      if crafted.None? then c else Add(c, crafted.value, 1).slots
  }

  /** Material names are pairwise different. */
  predicate DistinctNames(materials: seq<MaterialRequirement>) {
    forall i, j :: 0 <= i < j < |materials| ==> materials[i].materialName != materials[j].materialName
  }

  /** Two slot sequences that agree on every slot named `itemName` give the
      same lookup. */
  lemma {:induction false} FindSame(s: seq<ItemSlot>, t: seq<ItemSlot>, itemName: string)
    requires |s| == |t|
    requires forall k :: 0 <= k < |s| ==> (NamedIn(s[k], itemName) <==> NamedIn(t[k], itemName))
    requires forall k :: 0 <= k < |s| && NamedIn(s[k], itemName) ==> s[k].item == t[k].item
    ensures FindItemByName(s, itemName) == FindItemByName(t, itemName)
    decreases |s|
  {
    if s != [] {
      FindSame(s[1..], t[1..], itemName);
    }
  }

  /** Removing item `x` does not change the lookup of a name `x` does not
      carry. */
  lemma RemoveKeepsLookup(s: seq<ItemSlot>, x: Item, need: int, itemName: string)
    requires AllOk(s) && need >= 0 && x.objectName != itemName
    ensures FindItemByName(RemoveUpToAt(s, Some(x), need, 0), itemName) == FindItemByName(s, itemName)
  {
    var r := RemoveUpToAt(s, Some(x), need, 0);
    RemoveUpToFacts(s, x, need, 0);
    RemoveUpToEmptyItems(s, x, need, 0);
    forall k | 0 <= k < |s|
      ensures (NamedIn(s[k], itemName) <==> NamedIn(r[k], itemName))
      ensures NamedIn(s[k], itemName) ==> s[k].item == r[k].item
    {
      if s[k].item != Some(x) {
        assert r[k] == s[k];
      } else {
        assert r[k].item in {None, Some(x)};
      }
    }
    FindSame(s, r, itemName);
  }

  /** What one pass of the removal loop leaves for the passes after it: the
      slots stay well formed, the later materials are still found as the same
      items and still in the required amounts, and only the first material's
      item loses anything. */
  lemma ConsumeStep(s: seq<ItemSlot>, materials: seq<MaterialRequirement>)
    requires AllOk(s) && CanCraft(s, materials) && DistinctNames(materials) && materials != []
    requires forall j :: 0 <= j < |materials| ==> materials[j].amount >= 0
    ensures var x := FindItemByName(s, materials[0].materialName).value;
      var s1 := ConsumeOne(s, materials[0]);
      var rest := materials[1..];
      && AllOk(s1)
      && Total(s1, x) == Total(s, x) - materials[0].amount
      && (forall y :: y != x ==> Total(s1, y) == Total(s, y))
      && (forall j :: 0 <= j < |rest| ==>
            FindItemByName(s1, rest[j].materialName) == FindItemByName(s, rest[j].materialName))
      && CanCraft(s1, rest) && DistinctNames(rest)
      && (forall j :: 0 <= j < |rest| ==> rest[j].amount >= 0)
  {
    var m := materials[0];
    assert Sufficient(s, m);
    var x := FindItemByName(s, m.materialName).value;
    var s1 := ConsumeOne(s, m);
    var rest := materials[1..];
    RemoveUpToFacts(s, x, m.amount, 0);
    RemoveUpToExact(s, x, m.amount);
    forall j | 0 <= j < |rest|
      ensures FindItemByName(s1, rest[j].materialName) == FindItemByName(s, rest[j].materialName)
    {
      assert rest[j] == materials[j + 1];
      RemoveKeepsLookup(s, x, m.amount, rest[j].materialName);
    }
    forall j | 0 <= j < |rest| ensures Sufficient(s1, rest[j]) {
      assert rest[j] == materials[j + 1];
      assert Sufficient(s, materials[j + 1]);
    }
    assert DistinctNames(rest) by {
      forall i, j | 0 <= i < j < |rest| ensures rest[i].materialName != rest[j].materialName {
        assert rest[i] == materials[i + 1] && rest[j] == materials[j + 1];
      }
    }
  }

  /** The removal loop keeps the slots well formed. */
  lemma {:induction false} ConsumeOk(s: seq<ItemSlot>, materials: seq<MaterialRequirement>)
    requires AllOk(s) && CanCraft(s, materials) && DistinctNames(materials)
    requires forall j :: 0 <= j < |materials| ==> materials[j].amount >= 0
    ensures AllOk(Consume(s, materials))
    decreases |materials|
  {
    if materials != [] {
      ConsumeStep(s, materials);
      ConsumeOk(ConsumeOne(s, materials[0]), materials[1..]);
    }
  }

  /** When every material is there in the required amount (distinct names,
      amounts not negative), the removal loop lowers the total of each
      material's item by exactly its amount. */
  lemma {:induction false} ConsumeTotals(s: seq<ItemSlot>, materials: seq<MaterialRequirement>)
    requires AllOk(s) && CanCraft(s, materials) && DistinctNames(materials)
    requires forall j :: 0 <= j < |materials| ==> materials[j].amount >= 0
    ensures forall j :: 0 <= j < |materials| ==>
      var x := FindItemByName(s, materials[j].materialName).value;
      Total(Consume(s, materials), x) == Total(s, x) - materials[j].amount
    decreases |materials|
  {
    if materials != [] {
      var x := FindItemByName(s, materials[0].materialName).value;
      var s1 := ConsumeOne(s, materials[0]);
      var rest := materials[1..];
      ConsumeStep(s, materials);
      ConsumeTotals(s1, rest);
      ConsumeOthers(s1, rest);
      forall j | 0 <= j < |materials|
        ensures var x' := FindItemByName(s, materials[j].materialName).value;
          Total(Consume(s, materials), x') == Total(s, x') - materials[j].amount
      {
        if j > 0 {
          assert materials[j] == rest[j - 1];
          assert FindItemByName(s, materials[j].materialName).value != x;
        } else {
          forall jj | 0 <= jj < |rest| ensures x.objectName != rest[jj].materialName {
            assert rest[jj] == materials[jj + 1];
          }
        }
      }
    }
  }

  /** An item whose asset name no material carries keeps its total. */
  lemma {:induction false} ConsumeOthers(s: seq<ItemSlot>, materials: seq<MaterialRequirement>)
    requires AllOk(s) && CanCraft(s, materials) && DistinctNames(materials)
    requires forall j :: 0 <= j < |materials| ==> materials[j].amount >= 0
    ensures forall y: Item :: (forall j :: 0 <= j < |materials| ==> y.objectName != materials[j].materialName) ==>
      Total(Consume(s, materials), y) == Total(s, y)
    decreases |materials|
  {
    if materials != [] {
      var s1 := ConsumeOne(s, materials[0]);
      var rest := materials[1..];
      ConsumeStep(s, materials);
      ConsumeOthers(s1, rest);
      forall y: Item | forall j :: 0 <= j < |materials| ==> y.objectName != materials[j].materialName
        ensures Total(Consume(s, materials), y) == Total(s, y)
      {
        assert y.objectName != materials[0].materialName;
        forall jj | 0 <= jj < |rest| ensures y.objectName != rest[jj].materialName {
          assert rest[jj] == materials[jj + 1];
        }
      }
    }
  }

  /** A successful craft whose product is found adds one unit of it when the
      container has room for it after the materials are gone, and none when it
      has no room; a failed check changes nothing. */
  lemma CraftProduct(s: seq<ItemSlot>, recipe: CraftingRecipe, c: Item)
    requires AllOk(s) && CanCraft(s, recipe.materials) && DistinctNames(recipe.materials)
    requires forall j :: 0 <= j < |recipe.materials| ==> recipe.materials[j].amount >= 0
    ensures var consumed := Consume(s, recipe.materials);
      Total(Craft(s, recipe, Some(c)), c) == Total(consumed, c) + (if Room(consumed, c) >= 1 then 1 else 0)
    ensures AllOk(Craft(s, recipe, Some(c)))
  {
    var consumed := Consume(s, recipe.materials);
    assert Craft(s, recipe, Some(c)) == Add(consumed, c, 1).slots;
    ConsumeOk(s, recipe.materials);
    AddOneFacts(consumed, c);
  }

  /** Adding one unit to well-formed slots adds it exactly when there is
      room, and keeps the slots well formed. */
  lemma AddOneFacts(consumed: seq<ItemSlot>, c: Item)
    requires AllOk(consumed)
    ensures Total(Add(consumed, c, 1).slots, c) == Total(consumed, c) + (if Room(consumed, c) >= 1 then 1 else 0)
    ensures AllOk(Add(consumed, c, 1).slots)
  {
    StackRoomNonNegative(consumed, c);
    AddFacts(consumed, c, 1);
  }

  // ---------------------------------------------------------------------------
  // The removal loop as written: `RemoveMaterial` calls `RemoveItem`
  // ---------------------------------------------------------------------------

  /** One pass of the removal loop as written, over `RemoveItem`'s scan. */
  function ConsumeOneAsWritten(s: seq<ItemSlot>, m: MaterialRequirement): seq<ItemSlot> {
    RemoveScanAt(s, FindItemByName(s, m.materialName), m.amount, 0)
  }

  function ConsumeAsWritten(s: seq<ItemSlot>, materials: seq<MaterialRequirement>): seq<ItemSlot>
    decreases |materials|
  {
    if materials == [] then s else ConsumeAsWritten(ConsumeOneAsWritten(s, materials[0]), materials[1..])
  }

  /** The slots after `AttemptCraft(recipe)` as the source runs it. */
  function CraftAsWritten(s: seq<ItemSlot>, recipe: CraftingRecipe, crafted: Option<Item>): seq<ItemSlot> {
    if !CanCraft(s, recipe.materials) then s
    else
      var c := ConsumeAsWritten(s, recipe.materials);
      if crafted.None? then c else Add(c, crafted.value, 1).slots
  }

  /** Removing item `x` with the scan as written does not change the lookup
      of a name `x` does not carry. */
  lemma RemoveScanKeepsLookup(s: seq<ItemSlot>, x: Item, need: int, itemName: string)
    requires AllOk(s) && need >= 0 && x.objectName != itemName
    ensures FindItemByName(RemoveScanAt(s, Some(x), need, 0), itemName) == FindItemByName(s, itemName)
  {
    var r := RemoveScanAt(s, Some(x), need, 0);
    RemoveScanRemovesAtLeast(s, x, need, 0);
    RemoveScanEmptyItems(s, x, need, 0);
    forall k | 0 <= k < |s|
      ensures (NamedIn(s[k], itemName) <==> NamedIn(r[k], itemName))
      ensures NamedIn(s[k], itemName) ==> s[k].item == r[k].item
    {
      if s[k].item != Some(x) {
        assert r[k] == s[k];
      } else {
        assert r[k].item in {None, Some(x)};
      }
    }
    FindSame(s, r, itemName);
  }

  /** What one pass of the removal loop as written leaves for the passes
      after it: as `ConsumeStep`, except that the first material's item loses
      at least its amount rather than exactly it. */
  lemma ConsumeAsWrittenStep(s: seq<ItemSlot>, materials: seq<MaterialRequirement>)
    requires AllOk(s) && CanCraft(s, materials) && DistinctNames(materials) && materials != []
    requires forall j :: 0 <= j < |materials| ==> materials[j].amount >= 0
    ensures var x := FindItemByName(s, materials[0].materialName).value;
      var s1 := ConsumeOneAsWritten(s, materials[0]);
      var rest := materials[1..];
      && AllOk(s1)
      && Total(s1, x) <= Total(s, x) - materials[0].amount
      && (forall y :: y != x ==> Total(s1, y) == Total(s, y))
      && (forall j :: 0 <= j < |rest| ==>
            FindItemByName(s1, rest[j].materialName) == FindItemByName(s, rest[j].materialName))
      && CanCraft(s1, rest) && DistinctNames(rest)
      && (forall j :: 0 <= j < |rest| ==> rest[j].amount >= 0)
  {
    var m := materials[0];
    assert Sufficient(s, m);
    var x := FindItemByName(s, m.materialName).value;
    var s1 := ConsumeOneAsWritten(s, m);
    var rest := materials[1..];
    RemoveScanRemovesAtLeast(s, x, m.amount, 0);
    assert s[0..] == s;
    RemoveScanOthers(s, x, m.amount);
    forall j | 0 <= j < |rest|
      ensures FindItemByName(s1, rest[j].materialName) == FindItemByName(s, rest[j].materialName)
    {
      assert rest[j] == materials[j + 1];
      RemoveScanKeepsLookup(s, x, m.amount, rest[j].materialName);
    }
    forall j | 0 <= j < |rest| ensures Sufficient(s1, rest[j]) {
      assert rest[j] == materials[j + 1];
      assert Sufficient(s, materials[j + 1]);
    }
    assert DistinctNames(rest) by {
      forall i, j | 0 <= i < j < |rest| ensures rest[i].materialName != rest[j].materialName {
        assert rest[i] == materials[i + 1] && rest[j] == materials[j + 1];
      }
    }
  }

  /** The removal loop as written keeps the slots well formed. */
  lemma {:induction false} ConsumeAsWrittenOk(s: seq<ItemSlot>, materials: seq<MaterialRequirement>)
    requires AllOk(s) && CanCraft(s, materials) && DistinctNames(materials)
    requires forall j :: 0 <= j < |materials| ==> materials[j].amount >= 0
    ensures AllOk(ConsumeAsWritten(s, materials))
    decreases |materials|
  {
    if materials != [] {
      ConsumeAsWrittenStep(s, materials);
      ConsumeAsWrittenOk(ConsumeOneAsWritten(s, materials[0]), materials[1..]);
    }
  }

  /** The removal loop as written lowers the total of each material's item
      by at least its amount (`CraftAsWrittenOverConsumes` shows it can be
      more). */
  lemma {:induction false} ConsumeAsWrittenTotals(s: seq<ItemSlot>, materials: seq<MaterialRequirement>)
    requires AllOk(s) && CanCraft(s, materials) && DistinctNames(materials)
    requires forall j :: 0 <= j < |materials| ==> materials[j].amount >= 0
    ensures forall j :: 0 <= j < |materials| ==>
      var x := FindItemByName(s, materials[j].materialName).value;
      Total(ConsumeAsWritten(s, materials), x) <= Total(s, x) - materials[j].amount
    decreases |materials|
  {
    if materials != [] {
      var x := FindItemByName(s, materials[0].materialName).value;
      var s1 := ConsumeOneAsWritten(s, materials[0]);
      var rest := materials[1..];
      ConsumeAsWrittenStep(s, materials);
      ConsumeAsWrittenTotals(s1, rest);
      ConsumeAsWrittenOthers(s1, rest);
      forall j | 0 <= j < |materials|
        ensures var x' := FindItemByName(s, materials[j].materialName).value;
          Total(ConsumeAsWritten(s, materials), x') <= Total(s, x') - materials[j].amount
      {
        if j > 0 {
          assert materials[j] == rest[j - 1];
          assert FindItemByName(s, materials[j].materialName).value != x;
        } else {
          forall jj | 0 <= jj < |rest| ensures x.objectName != rest[jj].materialName {
            assert rest[jj] == materials[jj + 1];
          }
        }
      }
    }
  }

  /** The removal loop as written still leaves an item alone whose asset
      name no material carries. */
  lemma {:induction false} ConsumeAsWrittenOthers(s: seq<ItemSlot>, materials: seq<MaterialRequirement>)
    requires AllOk(s) && CanCraft(s, materials) && DistinctNames(materials)
    requires forall j :: 0 <= j < |materials| ==> materials[j].amount >= 0
    ensures forall y: Item :: (forall j :: 0 <= j < |materials| ==> y.objectName != materials[j].materialName) ==>
      Total(ConsumeAsWritten(s, materials), y) == Total(s, y)
    decreases |materials|
  {
    if materials != [] {
      var s1 := ConsumeOneAsWritten(s, materials[0]);
      var rest := materials[1..];
      ConsumeAsWrittenStep(s, materials);
      ConsumeAsWrittenOthers(s1, rest);
      forall y: Item | forall j :: 0 <= j < |materials| ==> y.objectName != materials[j].materialName
        ensures Total(ConsumeAsWritten(s, materials), y) == Total(s, y)
      {
        assert y.objectName != materials[0].materialName;
        forall jj | 0 <= jj < |rest| ensures y.objectName != rest[jj].materialName {
          assert rest[jj] == materials[jj + 1];
        }
      }
    }
  }

  /** Crafting as written takes more than the recipe asks: a plank needing 3
      wood from two stacks of 5 leaves 2 + 2 wood, where the corrected craft
      leaves 2 + 5. */
  lemma CraftAsWrittenOverConsumes()
    ensures var wood := Item(1, "Wood", "Wood", 10);
      var s := [ItemSlot(Some(wood), 5), ItemSlot(Some(wood), 5)];
      var recipe := CraftingRecipe("Plank", [MaterialRequirement("Wood", 3)]);
      && CanCraft(s, recipe.materials)
      && CraftAsWritten(s, recipe, None) == [ItemSlot(Some(wood), 2), ItemSlot(Some(wood), 2)]
      && Craft(s, recipe, None) == [ItemSlot(Some(wood), 2), ItemSlot(Some(wood), 5)]
  {
    var wood := Item(1, "Wood", "Wood", 10);
    var s := [ItemSlot(Some(wood), 5), ItemSlot(Some(wood), 5)];
    var m := MaterialRequirement("Wood", 3);
    assert NamedIn(s[0], "Wood");
    assert FindItemByName(s, "Wood") == Some(wood);
    RemoveScanOverRemoves();
    assert Total(s[1..], wood) == 5;
    assert Total(s, wood) == 10;
    assert Sufficient(s, m);
    assert [m][1..] == [];
    assert ConsumeAsWritten(s, [m]) == ConsumeOneAsWritten(s, m);
    assert Consume(s, [m]) == ConsumeOne(s, m);
  }

  /** A recipe that names one material twice passes the check loop, which
      weighs each requirement alone: two requirements of 3 wood against one
      stack of 4 are both sufficient, and either removal leaves no wood, so
      the craft takes 4 wood rather than 6. */
  lemma RepeatedMaterialUnderConsumes()
    ensures var wood := Item(1, "Wood", "Wood", 10);
      var s := [ItemSlot(Some(wood), 4)];
      var materials := [MaterialRequirement("Wood", 3), MaterialRequirement("Wood", 3)];
      && !DistinctNames(materials)
      && CanCraft(s, materials)
      && Consume(s, materials) == [EmptySlot]
      && ConsumeAsWritten(s, materials) == [EmptySlot]
      && Total(s, wood) - Total(Consume(s, materials), wood) == 4
  {
    var wood := Item(1, "Wood", "Wood", 10);
    var s := [ItemSlot(Some(wood), 4)];
    var m := MaterialRequirement("Wood", 3);
    var materials := [m, m];
    assert NamedIn(s[0], "Wood");
    assert FindItemByName(s, "Wood") == Some(wood);
    assert Total(s, wood) == 4;
    assert Sufficient(s, m);
    var s1 := [ItemSlot(Some(wood), 1)];
    assert s[0 := s[0].(quantity := 1)] == s1;
    assert RemoveUpToAt(s, Some(wood), 3, 0) == s1;
    assert RemoveScanAt(s1, Some(wood), 3, 1) == s1;
    assert RemoveScanAt(s, Some(wood), 3, 0) == s1;
    assert NamedIn(s1[0], "Wood");
    assert FindItemByName(s1, "Wood") == Some(wood);
    assert s1[0 := EmptySlot] == [EmptySlot];
    assert RemoveUpToAt([EmptySlot], Some(wood), 2, 1) == [EmptySlot];
    assert RemoveScanAt([EmptySlot], Some(wood), 2, 1) == [EmptySlot];
    assert RemoveUpToAt(s1, Some(wood), 3, 0) == [EmptySlot];
    assert RemoveScanAt(s1, Some(wood), 3, 0) == [EmptySlot];
    assert materials[1..] == [m] && [m][1..] == [];
    assert Total([EmptySlot], wood) == 0;
    assert materials[0].materialName == materials[1].materialName;
    assert CanCraft(s, materials);
    assert Consume(s, materials) == Consume(s1, [m]) == [EmptySlot];
    assert ConsumeAsWritten(s, materials) == ConsumeAsWritten(s1, [m]) == [EmptySlot];
  }

  // ---------------------------------------------------------------------------
  // OnItemsUpdated during a craft
  // ---------------------------------------------------------------------------

  /** How many times the removal loop as written raises `OnItemsUpdated`. */
  function ConsumeAsWrittenNotes(s: seq<ItemSlot>, materials: seq<MaterialRequirement>): nat
    decreases |materials|
  {
    if materials == [] then 0
    else
      var m := materials[0];
      (if RemoveScanNotifies(s, FindItemByName(s, m.materialName), m.amount, 0) then 1 else 0)
        + ConsumeAsWrittenNotes(ConsumeOneAsWritten(s, m), materials[1..])
  }

  /** How many times the corrected removal loop raises `OnItemsUpdated`. */
  function ConsumeNotes(s: seq<ItemSlot>, materials: seq<MaterialRequirement>): nat
    decreases |materials|
  {
    if materials == [] then 0
    else
      var m := materials[0];
      (if RemoveUpToNotifies(s, FindItemByName(s, m.materialName), m.amount, 0) then 1 else 0)
        + ConsumeNotes(ConsumeOne(s, m), materials[1..])
  }

  /** The crafting station bound to the player's inventory. */
  class CraftingSystem {
    const inventory: Inventory

    constructor (inventory: Inventory)
      ensures this.inventory == inventory
    {
      this.inventory := inventory;
    }

    /** `HasSufficientMaterial(item, requiredAmount)`. */
    method HasSufficientMaterial(item: Item, requiredAmount: int) returns (b: bool)
      ensures b <==> Total(inventory.ItemContainer.itemSlots[..], item) >= requiredAmount
    {
      var total := inventory.ItemContainer.GetTotalQuantity(item);
      b := total >= requiredAmount;
    }

    /** The check loop of `AttemptCraft`: every material is found by name
        and present in the required amount. */
    method HasAllMaterials(materials: seq<MaterialRequirement>) returns (ok: bool)
      ensures ok <==> CanCraft(inventory.ItemContainer.itemSlots[..], materials)
    {
      var slots := inventory.ItemContainer.itemSlots;
      var j := 0;
      while j < |materials|
        invariant 0 <= j <= |materials|
        invariant forall jj :: 0 <= jj < j ==> Sufficient(slots[..], materials[jj])
      {
        var material := materials[j];
        var materialItem := FindItemByName(slots[..], material.materialName);
        if materialItem == None {
          return false;
        }
        var enough := HasSufficientMaterial(materialItem.value, material.amount);
        if !enough {
          return false;
        }
        j := j + 1;
      }
      return true;
    }

    /** `RemoveMaterial(item, amount)`: `RemoveItem` as written. */
    method RemoveMaterial(item: Option<Item>, amount: int)
      modifies inventory.ItemContainer, inventory.ItemContainer.itemSlots
      ensures inventory.ItemContainer.itemSlots[..] == RemoveScanAt(old(inventory.ItemContainer.itemSlots[..]), item, amount, 0)
      ensures inventory.ItemContainer.itemsUpdated == old(inventory.ItemContainer.itemsUpdated) +
        if RemoveScanNotifies(old(inventory.ItemContainer.itemSlots[..]), item, amount, 0) then 1 else 0
    {
      inventory.ItemContainer.RemoveItem(ItemSlot(item, amount));
    }

    /** `RemoveMaterial` over the corrected removal. */
    method RemoveMaterialCorrected(item: Option<Item>, amount: int)
      modifies inventory.ItemContainer, inventory.ItemContainer.itemSlots
      ensures inventory.ItemContainer.itemSlots[..] == RemoveUpToAt(old(inventory.ItemContainer.itemSlots[..]), item, amount, 0)
      ensures inventory.ItemContainer.itemsUpdated == old(inventory.ItemContainer.itemsUpdated) +
        if RemoveUpToNotifies(old(inventory.ItemContainer.itemSlots[..]), item, amount, 0) then 1 else 0
    {
      inventory.ItemContainer.RemoveItemCorrected(ItemSlot(item, amount));
    }

    /** `AddCraftedItem(item)`: adds one unit; what did not fit is dropped. */
    method AddCraftedItem(item: Item)
      modifies inventory.ItemContainer, inventory.ItemContainer.itemSlots
      ensures inventory.ItemContainer.itemSlots[..] == Add(old(inventory.ItemContainer.itemSlots[..]), item, 1).slots
      ensures inventory.ItemContainer.itemsUpdated == old(inventory.ItemContainer.itemsUpdated) + 1
    {
      var result := inventory.ItemContainer.AddItem(ItemSlot(Some(item), 1));
    }

    /** `AttemptCraft(recipe)` as the source runs it; `craftables` stands for
        loading a craftable asset by name. A failed check changes nothing and
        raises nothing. */
    method AttemptCraft(recipe: CraftingRecipe, craftables: string -> Option<Item>)
      modifies inventory.ItemContainer, inventory.ItemContainer.itemSlots
      ensures inventory.ItemContainer.itemSlots[..] ==
        CraftAsWritten(old(inventory.ItemContainer.itemSlots[..]), recipe, craftables(recipe.itemName))
      ensures inventory.ItemContainer.itemsUpdated == old(inventory.ItemContainer.itemsUpdated) +
        if !CanCraft(old(inventory.ItemContainer.itemSlots[..]), recipe.materials) then 0
        else
          ConsumeAsWrittenNotes(old(inventory.ItemContainer.itemSlots[..]), recipe.materials) +
          (if craftables(recipe.itemName).Some? then 1 else 0)
    {
      var container := inventory.ItemContainer;
      var slots := container.itemSlots;
      ghost var s0 := slots[..];
      var materials := recipe.materials;
      var ok := HasAllMaterials(materials);
      if !ok {
        return;
      }
      var j := 0;
      assert materials[0..] == materials;
      while j < |materials|
        invariant 0 <= j <= |materials|
        invariant ConsumeAsWritten(slots[..], materials[j..]) == ConsumeAsWritten(s0, materials)
        invariant container.itemsUpdated + ConsumeAsWrittenNotes(slots[..], materials[j..])
          == old(container.itemsUpdated) + ConsumeAsWrittenNotes(s0, materials)
      {
        var material := materials[j];
        var materialItem := FindItemByName(slots[..], material.materialName);
        RemoveMaterial(materialItem, material.amount);
        assert materials[j..][1..] == materials[j + 1..];
        j := j + 1;
      }
      var craftedItem := craftables(recipe.itemName);
      if craftedItem != None {
        AddCraftedItem(craftedItem.value);
      }
    }

    /** `AttemptCraft` over the corrected removal. */
    method AttemptCraftCorrected(recipe: CraftingRecipe, craftables: string -> Option<Item>)
      modifies inventory.ItemContainer, inventory.ItemContainer.itemSlots
      ensures inventory.ItemContainer.itemSlots[..] ==
        Craft(old(inventory.ItemContainer.itemSlots[..]), recipe, craftables(recipe.itemName))
      ensures inventory.ItemContainer.itemsUpdated == old(inventory.ItemContainer.itemsUpdated) +
        if !CanCraft(old(inventory.ItemContainer.itemSlots[..]), recipe.materials) then 0
        else
          ConsumeNotes(old(inventory.ItemContainer.itemSlots[..]), recipe.materials) +
          (if craftables(recipe.itemName).Some? then 1 else 0)
    {
      var container := inventory.ItemContainer;
      var slots := container.itemSlots;
      ghost var s0 := slots[..];
      var materials := recipe.materials;
      var ok := HasAllMaterials(materials);
      if !ok {
        return;
      }
      var j := 0;
      assert materials[0..] == materials;
      while j < |materials|
        invariant 0 <= j <= |materials|
        invariant Consume(slots[..], materials[j..]) == Consume(s0, materials)
        invariant container.itemsUpdated + ConsumeNotes(slots[..], materials[j..])
          == old(container.itemsUpdated) + ConsumeNotes(s0, materials)
      {
        var material := materials[j];
        var materialItem := FindItemByName(slots[..], material.materialName);
        RemoveMaterialCorrected(materialItem, material.amount);
        assert materials[j..][1..] == materials[j + 1..];
        j := j + 1;
      }
      var craftedItem := craftables(recipe.itemName);
      if craftedItem != None {
        AddCraftedItem(craftedItem.value);
      }
    }
  }
}
