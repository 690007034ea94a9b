/** The hotbar: nine slots that each show one `HotbarItem`. Assigning a slot's
    item re-draws it, and re-drawing an inventory item the inventory no longer
    holds clears the slot again, so what a slot ends up showing is `Shown` of
    what was assigned. */
module Hotbars {
  import opened Common
  import opened Items
  import opened ContainerSpec
  import opened ItemContainers

  /** What the slot holds after `SlotItem = v`: an inventory item that the
      inventory does not hold is dropped, anything else stays. */
  function Shown(v: Option<HotbarItem>, s: seq<ItemSlot>): Option<HotbarItem> {
    if v.Some? && v.value.InventoryEntry? && !Holds(s, v.value.item) then None else v
  }

  /** The quantity label of `SetItemQuantityUI`: the total when above 1,
      a blank otherwise. */
  function QuantityLabel(total: int): (text: string)
    ensures total > 1 ==> ParseInt(text) == Some(total)
    ensures total <= 1 <==> text == " "
  {
    if total > 1 then IntToStringRoundTrip(total); IntToString(total) else " "
  }

  /** Dropping an inventory slot's item onto a hotbar slot: whatever the
      inventory slot holds is shown as it is. */
  lemma ShownFromInventory(s: seq<ItemSlot>, index: nat)
    requires index < |s|
    ensures var v := if s[index].item.None? then None else Some(InventoryEntry(s[index].item.value));
      Shown(v, s) == v
  {
    if s[index].item.Some? {
      assert s[index].item == Some(s[index].item.value);
    }
  }

  class HotbarSlot {
    const inventory: ItemContainer
    var slotItem: Option<HotbarItem>
    /** `EnableSlotUI`: whether the icon is shown. */
    var slotUIEnabled: bool
    var quantityTextEnabled: bool
    var quantityText: string

    constructor (inventory: ItemContainer)
      ensures this.inventory == inventory
      ensures slotItem == None && !slotUIEnabled && !quantityTextEnabled && quantityText == ""
    {
      this.inventory := inventory;
      slotItem := None;
      slotUIEnabled := false;
      quantityTextEnabled := false;
      quantityText := "";
    }

    /** The slot's display agrees with its item: the icon is on exactly when
        there is an item, the quantity text exactly when it is an inventory
        item, and an inventory item is one the inventory holds, labelled with
        its total. */
    predicate Consistent()
      reads this, inventory, inventory.itemSlots
    {
      && slotUIEnabled == slotItem.Some?
      && quantityTextEnabled == (slotItem.Some? && slotItem.value.InventoryEntry?)
      && (slotItem.Some? && slotItem.value.InventoryEntry? ==>
            Holds(inventory.itemSlots[..], slotItem.value.item)
            && quantityText == QuantityLabel(Total(inventory.itemSlots[..], slotItem.value.item)))
    }

    /** `EnableSlotUI(enable)`. */
    method EnableSlotUI(enable: bool)
      modifies this
      ensures slotUIEnabled == enable && quantityTextEnabled == enable
      ensures slotItem == old(slotItem) && quantityText == old(quantityText)
    {
      slotUIEnabled := enable;
      quantityTextEnabled := enable;
    }

    /** The `SlotItem` setter: store the item, then re-draw. */
    method SetSlotItem(value: Option<HotbarItem>)
      modifies this
      ensures slotItem == Shown(value, inventory.itemSlots[..])
      ensures Consistent()
      ensures slotItem.None? || slotItem.value.OtherEntry? ==> quantityText == old(quantityText)
      decreases if value.None? then 0 else 1, 2
    {
      slotItem := value;
      UpdateSlotUI();
    }

    /** `UpdateSlotUI()`. */
    method UpdateSlotUI()
      modifies this
      ensures slotItem == Shown(old(slotItem), inventory.itemSlots[..])
      ensures Consistent()
      ensures slotItem.None? || slotItem.value.OtherEntry? ==> quantityText == old(quantityText)
      decreases if slotItem.None? then 0 else 1, 1
    {
      if slotItem == None {
        EnableSlotUI(false);
        return;
      }
      EnableSlotUI(true);
      SetItemQuantityUI();
    }

    /** `SetItemQuantityUI()`, entered with the slot UI switched on. */
    method SetItemQuantityUI()
      requires slotItem.Some? && slotUIEnabled && quantityTextEnabled
      modifies this
      ensures slotItem == Shown(old(slotItem), inventory.itemSlots[..])
      ensures Consistent()
      ensures slotItem.None? || slotItem.value.OtherEntry? ==> quantityText == old(quantityText)
      decreases 1, 0
    {
      if slotItem.value.InventoryEntry? {
        var inventoryItem := slotItem.value.item;
        var has := inventory.HasItem(inventoryItem);
        if has {
          var quantityCount := inventory.GetTotalQuantity(inventoryItem);
          quantityText := QuantityLabel(quantityCount);
        } else {
          SetSlotItem(None);
        }
      } else {
        quantityTextEnabled := false;
      }
    }

    /** `AddItem(itemToAdd)`: only an empty slot takes the item. The result
        is true even when the re-draw clears the slot again. */
    method AddItem(itemToAdd: HotbarItem) returns (added: bool)
      modifies this
      ensures added <==> old(slotItem).None?
      ensures !added ==> unchanged(this)
      ensures added ==> slotItem == Shown(Some(itemToAdd), inventory.itemSlots[..]) && Consistent()
    {
      if slotItem != None {
        return false;
      }
      SetSlotItem(Some(itemToAdd));
      return true;
    }

    /** `OnDrop` of an inventory slot: the hotbar slot now refers to the item
        in that inventory slot (the inventory itself is not changed). */
    method OnDropFromInventory(source: ItemContainer, index: nat)
      requires index < source.itemSlots.Length
      modifies this
      ensures var dropped := source.itemSlots[index].item;
        slotItem == Shown(if dropped.None? then None else Some(InventoryEntry(dropped.value)), inventory.itemSlots[..])
      ensures Consistent()
    {
      var dropped := source.itemSlots[index].item;
      SetSlotItem(if dropped.None? then None else Some(InventoryEntry(dropped.value)));
    }

    /** `OnDrop` of another hotbar slot: the two slots exchange items, each
        re-drawn against its own inventory. */
    method OnDropFromHotbar(hotbarSlot: HotbarSlot)
      modifies this, hotbarSlot
      ensures hotbarSlot != this ==>
        && slotItem == Shown(old(hotbarSlot.slotItem), inventory.itemSlots[..])
        && hotbarSlot.slotItem == Shown(old(slotItem), hotbarSlot.inventory.itemSlots[..])
        && Consistent() && hotbarSlot.Consistent()
      ensures hotbarSlot == this ==> slotItem == Shown(old(slotItem), inventory.itemSlots[..]) && Consistent()
    {
      var oldItem := slotItem;
      SetSlotItem(hotbarSlot.slotItem);
      hotbarSlot.SetSlotItem(oldItem);
    }
  }

  class Hotbar {
    const hotbarSlots: array<HotbarSlot>

    constructor (hotbarSlots: array<HotbarSlot>)
      ensures this.hotbarSlots == hotbarSlots
    {
      this.hotbarSlots := hotbarSlots;
    }

    /** The slots are nine distinct objects. */
    predicate Valid()
      reads this, hotbarSlots
    {
      hotbarSlots.Length == 9
      && forall i, j :: 0 <= i < j < hotbarSlots.Length ==> hotbarSlots[i] != hotbarSlots[j]
    }

    /** The index of the first empty slot from `i` on, or the number of slots
        when every one is taken. */
    function FirstFree(i: nat): (f: nat)
      requires i <= hotbarSlots.Length
      reads this, hotbarSlots, set k | 0 <= k < hotbarSlots.Length :: hotbarSlots[k]
      ensures i <= f <= hotbarSlots.Length
      ensures forall k :: i <= k < f ==> hotbarSlots[k].slotItem.Some?
      ensures f < hotbarSlots.Length ==> hotbarSlots[f].slotItem.None?
      decreases hotbarSlots.Length - i
    {
      if i == hotbarSlots.Length then i
      else if hotbarSlots[i].slotItem.None? then i
      else FirstFree(i + 1)
    }

    /** `Add(itemToAdd)`: the first empty slot takes the item; no other slot
        changes, and nothing changes when every slot is taken. */
    method Add(itemToAdd: HotbarItem)
      requires Valid()
      modifies set k | 0 <= k < hotbarSlots.Length :: hotbarSlots[k]
      ensures var f := old(FirstFree(0));
        && (forall k :: 0 <= k < hotbarSlots.Length && k != f ==> unchanged(hotbarSlots[k]))
        && (f < hotbarSlots.Length ==>
              hotbarSlots[f].slotItem == Shown(Some(itemToAdd), hotbarSlots[f].inventory.itemSlots[..])
              && hotbarSlots[f].Consistent())
    {
      ghost var f := FirstFree(0);
      var i := 0;
      while i < hotbarSlots.Length
        invariant 0 <= i <= f
        invariant forall k :: 0 <= k < hotbarSlots.Length ==> unchanged(hotbarSlots[k])
      {
        var added := hotbarSlots[i].AddItem(itemToAdd);
        if added {
          return;
        }
        i := i + 1;
      }
    }
  }
}
