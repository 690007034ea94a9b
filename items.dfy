/** Inventory items and the slots that hold them. */
module Items {
  import opened Common

  /** A positive stack limit (`[Min(1)] maxStackSize`, default 1). */
  type StackLimit = n: int | n >= 1 witness 1

  /** An `InventoryItem` asset. Items are Unity objects compared by reference;
      `id` is that identity, `objectName` is the Unity object name (the one
      `FindItemByName` compares), `name` is the display `Name` of the
      `HotbarItem` base class. Two values with the same id are the same asset. */
  datatype Item = Item(id: nat, objectName: string, name: string, maxStackSize: StackLimit)

  /** What a hotbar slot may hold: an `InventoryItem`, or another kind of
      `HotbarItem` (which has a name but no stack limit and no container
      quantity). */
  datatype HotbarItem =
    | InventoryEntry(item: Item)
    | OtherEntry(otherId: nat, otherName: string)
  {
    function Name(): string {
      match this
      case InventoryEntry(it) => it.name
      case OtherEntry(_, n) => n
    }
  }

  /** The `ItemSlot` struct: a possibly-null item and a quantity. */
  datatype ItemSlot = ItemSlot(item: Option<Item>, quantity: int)

  /** `new ItemSlot()`: the default struct value, which the container writes
      back whenever it empties a slot. */
  const EmptySlot: ItemSlot := ItemSlot(None, 0)

  /** `operator ==`: the struct's `Equals`, which compares the fields one by
      one (the item by reference, the quantity by value). */
  function SlotEquals(a: ItemSlot, b: ItemSlot): (r: bool)
    ensures r <==> a.item == b.item && a.quantity == b.quantity
  {
    a == b
  }

  /** `operator !=`. */
  function SlotDiffers(a: ItemSlot, b: ItemSlot): (r: bool)
    ensures r <==> !SlotEquals(a, b)
    ensures r <==> a.item != b.item || a.quantity != b.quantity
  {
    a != b
  }

  /** The amount of `x` a slot holds. */
  function Held(slot: ItemSlot, x: Item): int {
    if slot.item == Some(x) then slot.quantity else 0
  }

  /** The well-formedness the container keeps: an empty slot carries quantity
      0, a filled slot holds between 1 and its item's stack limit. */
  predicate SlotOk(slot: ItemSlot) {
    match slot.item
    case None => slot.quantity == 0
    case Some(it) => 1 <= slot.quantity <= it.maxStackSize
  }
}
