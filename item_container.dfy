/** The `ItemContainer` class: a fixed array of item slots updated in place.
    Each method is proved against the matching function of `ContainerSpec`;
    the loops run exactly as the C# loops do, and the invariant of each loop
    says that finishing the specification function from the current slot
    gives the same result as running it from slot 0 on the old slots. */
module ItemContainers {
  import opened Common
  import opened Items
  import opened ContainerSpec

  class ItemContainer {
    const itemSlots: array<ItemSlot>
    /** How many times `OnItemsUpdated` has been raised. */
    var itemsUpdated: nat

    /** `new ItemContainer(size)`: `size` default (empty) slots. */
    constructor (size: nat)
      ensures fresh(itemSlots)
      ensures itemSlots.Length == size
      ensures forall k :: 0 <= k < size ==> itemSlots[k] == EmptySlot
      ensures itemsUpdated == 0
    {
      itemSlots := new ItemSlot[size](_ => EmptySlot);
      itemsUpdated := 0;
    }

    /** `GetSlotByIndex(index)`: the slot at that index, as it is. */
    method GetSlotByIndex(index: int) returns (slot: ItemSlot)
      requires 0 <= index < itemSlots.Length
      ensures slot == itemSlots[index]
    {
      slot := itemSlots[index];
    }

    /** `AddItem(itemSlot)`: tops up the stacks of the item, then fills empty
        slots, and returns the slot with the quantity that did not fit. Every
        path raises `OnItemsUpdated` once. */
    method AddItem(itemSlot: ItemSlot) returns (rest: ItemSlot)
      requires itemSlot.item.Some?
      modifies this, itemSlots
      ensures rest.item == itemSlot.item
      ensures var r := Add(old(itemSlots[..]), itemSlot.item.value, itemSlot.quantity);
        itemSlots[..] == r.slots && rest.quantity == r.remaining
      ensures itemsUpdated == old(itemsUpdated) + 1
    {
      var x := itemSlot.item.value;
      var quantity := itemSlot.quantity;
      ghost var s0 := itemSlots[..];
      var i := 0;
      while i < itemSlots.Length
        invariant 0 <= i <= itemSlots.Length
        invariant TopUpAt(itemSlots[..], x, quantity, i) == TopUpAt(s0, x, itemSlot.quantity, 0)
        invariant itemsUpdated == old(itemsUpdated)
      {
        if itemSlots[i].item != None && itemSlots[i].item == itemSlot.item {
          var slotRemainingSpace := x.maxStackSize - itemSlots[i].quantity;
          if quantity <= slotRemainingSpace {
            itemSlots[i] := itemSlots[i].(quantity := itemSlots[i].quantity + quantity);
            quantity := 0;
            itemsUpdated := itemsUpdated + 1;
            return ItemSlot(itemSlot.item, quantity);
          } else if slotRemainingSpace > 0 {
            itemSlots[i] := itemSlots[i].(quantity := itemSlots[i].quantity + slotRemainingSpace);
            quantity := quantity - slotRemainingSpace;
          }
        }
        i := i + 1;
      }
      ghost var t := TopUpAt(s0, x, itemSlot.quantity, 0);
      assert t.slots == itemSlots[..] && t.remaining == quantity && !t.done;
      i := 0;
      while i < itemSlots.Length
        invariant 0 <= i <= itemSlots.Length
        invariant FillAt(itemSlots[..], x, quantity, i) == FillAt(t.slots, x, t.remaining, 0)
        invariant itemsUpdated == old(itemsUpdated)
      {
        if itemSlots[i].item == None {
          if quantity <= x.maxStackSize {
            itemSlots[i] := ItemSlot(itemSlot.item, quantity);
            quantity := 0;
            itemsUpdated := itemsUpdated + 1;
            return ItemSlot(itemSlot.item, quantity);
          } else {
            itemSlots[i] := ItemSlot(itemSlot.item, x.maxStackSize);
            quantity := quantity - x.maxStackSize;
          }
        }
        i := i + 1;
      }
      itemsUpdated := itemsUpdated + 1;
      rest := ItemSlot(itemSlot.item, quantity);
    }

    /** `RemoveItem(itemSlot)` exactly as written: a decrement that leaves
        something in the slot does not end the scan (see `RemoveScanAt`), and
        `OnItemsUpdated` is raised only when the scan stops. */
    method RemoveItem(itemSlot: ItemSlot)
      modifies this, itemSlots
      ensures itemSlots[..] == RemoveScanAt(old(itemSlots[..]), itemSlot.item, itemSlot.quantity, 0)
      ensures itemsUpdated == old(itemsUpdated) +
        if RemoveScanNotifies(old(itemSlots[..]), itemSlot.item, itemSlot.quantity, 0) then 1 else 0
    {
      ghost var s0 := itemSlots[..];
      var need := itemSlot.quantity;
      var i := 0;
      while i < itemSlots.Length
        invariant 0 <= i <= itemSlots.Length
        invariant RemoveScanAt(itemSlots[..], itemSlot.item, need, i) == RemoveScanAt(s0, itemSlot.item, itemSlot.quantity, 0)
        invariant RemoveScanNotifies(itemSlots[..], itemSlot.item, need, i) == RemoveScanNotifies(s0, itemSlot.item, itemSlot.quantity, 0)
        invariant itemsUpdated == old(itemsUpdated)
      {
        if itemSlots[i].item != None && itemSlots[i].item == itemSlot.item {
          if itemSlots[i].quantity < need {
            need := need - itemSlots[i].quantity;
            itemSlots[i] := EmptySlot;
          } else {
            itemSlots[i] := itemSlots[i].(quantity := itemSlots[i].quantity - need);
            if itemSlots[i].quantity == 0 {
              itemSlots[i] := EmptySlot;
              itemsUpdated := itemsUpdated + 1;
              return;
            }
          }
        }
        i := i + 1;
      }
    }

    /** The removal `RemoveItem` is meant to perform: the scan ends as soon as
        the request has been met (see `RemoveUpToAt`); the event stays where
        it is. */
    method RemoveItemCorrected(itemSlot: ItemSlot)
      modifies this, itemSlots
      ensures itemSlots[..] == RemoveUpToAt(old(itemSlots[..]), itemSlot.item, itemSlot.quantity, 0)
      ensures itemsUpdated == old(itemsUpdated) +
        if RemoveUpToNotifies(old(itemSlots[..]), itemSlot.item, itemSlot.quantity, 0) then 1 else 0
    {
      ghost var s0 := itemSlots[..];
      var need := itemSlot.quantity;
      var i := 0;
      while i < itemSlots.Length
        invariant 0 <= i <= itemSlots.Length
        invariant RemoveUpToAt(itemSlots[..], itemSlot.item, need, i) == RemoveUpToAt(s0, itemSlot.item, itemSlot.quantity, 0)
        invariant RemoveUpToNotifies(itemSlots[..], itemSlot.item, need, i) == RemoveUpToNotifies(s0, itemSlot.item, itemSlot.quantity, 0)
        invariant itemsUpdated == old(itemsUpdated)
      {
        if itemSlots[i].item != None && itemSlots[i].item == itemSlot.item {
          if itemSlots[i].quantity < need {
            need := need - itemSlots[i].quantity;
            itemSlots[i] := EmptySlot;
          } else {
            itemSlots[i] := itemSlots[i].(quantity := itemSlots[i].quantity - need);
            if itemSlots[i].quantity == 0 {
              itemSlots[i] := EmptySlot;
              itemsUpdated := itemsUpdated + 1;
            }
            return;
          }
        }
        i := i + 1;
      }
    }

    /** `RemoveAt(slotIndex)`: empties one slot; an index outside the array
        is ignored and raises no event. */
    method RemoveAt(slotIndex: int)
      modifies this, itemSlots
      ensures itemSlots[..] == RemoveAtSpec(old(itemSlots[..]), slotIndex)
      ensures itemsUpdated == old(itemsUpdated) + if 0 <= slotIndex < itemSlots.Length then 1 else 0
    {
      if slotIndex < 0 || slotIndex > itemSlots.Length - 1 {
        return;
      }
      itemSlots[slotIndex] := EmptySlot;
      itemsUpdated := itemsUpdated + 1;
    }

    /** `HasItem(item)`: some slot holds the item. */
    method HasItem(item: Item) returns (found: bool)
      ensures found <==> Holds(itemSlots[..], item)
    {
      var i := 0;
      while i < itemSlots.Length
        invariant 0 <= i <= itemSlots.Length
        invariant forall k :: 0 <= k < i ==> itemSlots[k].item != Some(item)
      {
        if itemSlots[i].item != None && itemSlots[i].item == Some(item) {
          assert itemSlots[..][i].item == Some(item);
          return true;
        }
        i := i + 1;
      }
      found := false;
    }

    /** `Swap(fromIndex, toIndex)`: merges or exchanges two slots; equal
        slots are left alone and raise no event. */
    method Swap(fromIndex: nat, toIndex: nat)
      requires fromIndex < itemSlots.Length && toIndex < itemSlots.Length
      modifies this, itemSlots
      ensures itemSlots[..] == SwapSpec(old(itemSlots[..]), fromIndex, toIndex)
      ensures itemsUpdated == old(itemsUpdated) +
        if SlotEquals(old(itemSlots[fromIndex]), old(itemSlots[toIndex])) then 0 else 1
    {
      var firstSlot := itemSlots[fromIndex];
      var secondSlot := itemSlots[toIndex];
      if SlotEquals(firstSlot, secondSlot) {
        return;
      }
      if secondSlot.item != None {
        if firstSlot.item == secondSlot.item {
          var secondSlotRemainingSpace := secondSlot.item.value.maxStackSize - secondSlot.quantity;
          if firstSlot.quantity <= secondSlotRemainingSpace {
            itemSlots[toIndex] := itemSlots[toIndex].(quantity := itemSlots[toIndex].quantity + firstSlot.quantity);
            itemSlots[fromIndex] := EmptySlot;
            itemsUpdated := itemsUpdated + 1;
            return;
          }
        }
      }
      itemSlots[fromIndex] := secondSlot;
      itemSlots[toIndex] := firstSlot;
      itemsUpdated := itemsUpdated + 1;
    }

    /** `GetTotalQuantity(item)`: the quantity of the item over all slots. */
    method GetTotalQuantity(item: Item) returns (totalCount: int)
      ensures totalCount == Total(itemSlots[..], item)
    {
      totalCount := 0;
      var i := 0;
      while i < itemSlots.Length
        invariant 0 <= i <= itemSlots.Length
        invariant totalCount + Total(itemSlots[i..], item) == Total(itemSlots[..], item)
      {
        TotalSplit(itemSlots[..], i, item);
        assert itemSlots[..][i..] == itemSlots[i..] && itemSlots[..][i + 1..] == itemSlots[i + 1..];
        if itemSlots[i].item != None && itemSlots[i].item == Some(item) {
          totalCount := totalCount + itemSlots[i].quantity;
        }
        i := i + 1;
      }
      assert itemSlots[..][0..] == itemSlots[..];
    }
  }

  /** The player's `Inventory` asset: a container of 20 slots. */
  class Inventory {
    const ItemContainer: ItemContainer

    constructor ()
      ensures fresh(ItemContainer) && fresh(ItemContainer.itemSlots)
      ensures ItemContainer.itemSlots.Length == 20 && ItemContainer.itemsUpdated == 0
      ensures forall k :: 0 <= k < 20 ==> ItemContainer.itemSlots[k] == EmptySlot
    {
      ItemContainer := new ItemContainer(20);
    }
  }
}
