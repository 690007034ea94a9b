/** The item held in the player's hand follows the selected hotbar slot: the
    first holdable object whose name contains the slot item's name is
    activated, the previous one deactivated, and the bow flag says whether the
    held object is the bow. */
module HandItemsModel {
  import opened Common
  import opened Items

  const HotbarSize := 9

  /** A scene object: `id` is its identity, `name` its object name. */
  datatype GameObj = GameObj(id: nat, name: string)

  /** The index of the first holdable object whose name contains the item's
      name; -1 for no item or no match. */
  function HandItemIndex(holdable: seq<GameObj>, item: Option<HotbarItem>, from: nat): (r: int)
    requires from <= |holdable|
    ensures r == -1 || from <= r < |holdable|
    ensures r >= 0 ==> item.Some? && Contains(holdable[r].name, item.value.Name())
    ensures r >= 0 ==> forall k :: from <= k < r ==> !Contains(holdable[k].name, item.value.Name())
    ensures r == -1 <==> item.None? || forall k :: from <= k < |holdable| ==> !Contains(holdable[k].name, item.value.Name())
    decreases |holdable| - from
  {
    if item.None? || from == |holdable| then -1
    else if Contains(holdable[from].name, item.value.Name()) then from
    else HandItemIndex(holdable, item, from + 1)
  }

  /** Entries with the same identity are the same object. */
  predicate IdentifiedById(objs: seq<GameObj>) {
    forall i, j :: 0 <= i < |objs| && 0 <= j < |objs| && objs[i].id == objs[j].id ==> objs[i] == objs[j]
  }

  /** `SelectNextHotbarSlot`'s index. */
  function NextIndex(i: int): nat { (i + 1) % HotbarSize }

  /** `SelectPreviousHotbarSlot`'s index. */
  function PreviousIndex(i: int): nat { (i - 1 + HotbarSize) % HotbarSize }

  /** Scrolling either way stays among the nine slots, wraps around at both
      ends, and the two directions undo each other. */
  lemma ScrollFacts(i: int)
    requires 0 <= i < HotbarSize
    ensures 0 <= NextIndex(i) < HotbarSize && 0 <= PreviousIndex(i) < HotbarSize
    ensures NextIndex(HotbarSize - 1) == 0 && PreviousIndex(0) == HotbarSize - 1
    ensures PreviousIndex(NextIndex(i)) == i && NextIndex(PreviousIndex(i)) == i
  {
  }

  // ---------------------------------------------------------------------------
  // The hand and what a selection does to it
  // ---------------------------------------------------------------------------

  /** What the component shows: the held object (`currentItemPrefab`), the
      objects active in the scene, and `hasBowInHand`. */
  datatype Hand = Hand(prefab: Option<GameObj>, active: set<nat>, bow: bool)

  /** The active objects once the held one is deactivated. */
  function Released(h: Hand): set<nat> {
    if h.prefab.Some? then h.active - {h.prefab.value.id} else h.active
  }

  /** The bow flag matches the held object, and among the holdable objects
      only the held one is active. */
  predicate ValidHand(holdable: seq<GameObj>, bowPrefab: Option<GameObj>, h: Hand) {
    && (h.bow <==> h.prefab.Some? && h.prefab == bowPrefab)
    && (forall k :: 0 <= k < |holdable| && holdable[k].id in h.active ==> h.prefab == Some(holdable[k]))
  }

  /** The hand after `SelectHotbarSlot(slotIndex)` given the hotbar slots'
      items: an index past the slots changes nothing; otherwise the held
      object is deactivated and the first matching holdable one, if any, is
      activated and held. */
  function AfterSelect(holdable: seq<GameObj>, bowPrefab: Option<GameObj>, h: Hand, slotIndex: nat,
                       slots: seq<Option<HotbarItem>>): Hand
  {
    if slotIndex >= |slots| then h
    else
      var i := HandItemIndex(holdable, slots[slotIndex], 0);
      if i >= 0 then Hand(Some(holdable[i]), Released(h) + {holdable[i].id}, Some(holdable[i]) == bowPrefab)
      else Hand(None, Released(h), false)
  }

  /** In a valid hand no holdable object is active once the held one is
      deactivated. */
  lemma ReleasedHoldsNoHoldable(holdable: seq<GameObj>, bowPrefab: Option<GameObj>, h: Hand)
    requires ValidHand(holdable, bowPrefab, h)
    ensures forall k :: 0 <= k < |holdable| ==> holdable[k].id !in Released(h)
  {
    forall k | 0 <= k < |holdable|
      ensures holdable[k].id !in Released(h)
    {
      if holdable[k].id in h.active {
        assert h.prefab == Some(holdable[k]);
      }
    }
  }

  /** A selection within the slots keeps the hand valid, leaves every object
      other than the old and the new hand item as it was, and holds the first
      holdable object matching the slot's item, or nothing when none does. */
  lemma SelectFacts(holdable: seq<GameObj>, bowPrefab: Option<GameObj>, h: Hand, slotIndex: nat,
                    slots: seq<Option<HotbarItem>>)
    requires IdentifiedById(holdable) && ValidHand(holdable, bowPrefab, h)
    ensures var r := AfterSelect(holdable, bowPrefab, h, slotIndex, slots);
      && ValidHand(holdable, bowPrefab, r)
      && Released(r) == Released(h)
      && (slotIndex < |slots| ==>
            && (r.prefab.None? <==> HandItemIndex(holdable, slots[slotIndex], 0) == -1)
            && (r.prefab.Some? ==>
                  && r.prefab.value.id in r.active
                  && r.prefab.value == holdable[HandItemIndex(holdable, slots[slotIndex], 0)]))
  {
    if slotIndex < |slots| {
      ReleasedHoldsNoHoldable(holdable, bowPrefab, h);
      var i := HandItemIndex(holdable, slots[slotIndex], 0);
      if i >= 0 {
        var r := AfterSelect(holdable, bowPrefab, h, slotIndex, slots);
        assert Released(r) == Released(h);
        forall k | 0 <= k < |holdable| && holdable[k].id in r.active
          ensures r.prefab == Some(holdable[k])
        {
          assert holdable[k].id == holdable[i].id;
        }
      }
    }
  }

  /** Selections made in turn: the hand after `SelectHotbarSlot` on each
      index of `idxs`, first to last. */
  function SelectAll(holdable: seq<GameObj>, bowPrefab: Option<GameObj>, h: Hand, idxs: seq<nat>,
                     slots: seq<Option<HotbarItem>>): Hand
    decreases |idxs|
  {
    if idxs == [] then h
    else AfterSelect(holdable, bowPrefab, SelectAll(holdable, bowPrefab, h, idxs[..|idxs| - 1], slots),
                     idxs[|idxs| - 1], slots)
  }

  /** Any run of selections keeps the hand valid and every object other than
      the hand items as it was. */
  lemma {:induction false} SelectAllKeeps(holdable: seq<GameObj>, bowPrefab: Option<GameObj>, h: Hand,
                                          idxs: seq<nat>, slots: seq<Option<HotbarItem>>)
    requires IdentifiedById(holdable) && ValidHand(holdable, bowPrefab, h)
    ensures var r := SelectAll(holdable, bowPrefab, h, idxs, slots);
      ValidHand(holdable, bowPrefab, r) && Released(r) == Released(h)
    decreases |idxs|
  {
    if idxs != [] {
      var init := idxs[..|idxs| - 1];
      SelectAllKeeps(holdable, bowPrefab, h, init, slots);
      SelectFacts(holdable, bowPrefab, SelectAll(holdable, bowPrefab, h, init, slots), idxs[|idxs| - 1], slots);
    }
  }

  /** Selection forgets: after several selections whose last index is within
      the slots, the hand is what that last selection alone would give. */
  lemma LastSelectionWins(holdable: seq<GameObj>, bowPrefab: Option<GameObj>, h: Hand,
                          idxs: seq<nat>, slots: seq<Option<HotbarItem>>)
    requires IdentifiedById(holdable) && ValidHand(holdable, bowPrefab, h)
    requires idxs != [] && idxs[|idxs| - 1] < |slots|
    ensures SelectAll(holdable, bowPrefab, h, idxs, slots)
         == AfterSelect(holdable, bowPrefab, h, idxs[|idxs| - 1], slots)
  {
    SelectAllKeeps(holdable, bowPrefab, h, idxs[..|idxs| - 1], slots);
  }

  /** Selecting `xs` and then `ys` is selecting `xs + ys`. */
  lemma {:induction false} SelectAllAppend(holdable: seq<GameObj>, bowPrefab: Option<GameObj>, h: Hand,
                                           xs: seq<nat>, ys: seq<nat>, slots: seq<Option<HotbarItem>>)
    ensures SelectAll(holdable, bowPrefab, SelectAll(holdable, bowPrefab, h, xs, slots), ys, slots)
         == SelectAll(holdable, bowPrefab, h, xs + ys, slots)
    decreases |ys|
  {
    if ys == [] {
      assert xs + ys == xs;
    } else {
      var init := ys[..|ys| - 1];
      SelectAllAppend(holdable, bowPrefab, h, xs, init, slots);
      assert (xs + ys)[..|xs + ys| - 1] == xs + init;
    }
  }

  /** The number keys among the first `n` that went down, in order. */
  function Pressed(keyDown: seq<bool>, n: nat): seq<nat>
    requires n <= |keyDown|
  {
    if n == 0 then [] else Pressed(keyDown, n - 1) + (if keyDown[n - 1] then [n - 1] else [])
  }

  /** The slots `Update` selects, in order: one for the scroll wheel, then one
      per number key that went down. */
  function Selections(scrollDelta: real, keyDown: seq<bool>, index: int): seq<nat>
    requires |keyDown| == HotbarSize
  {
    (if scrollDelta > 0.0 then [NextIndex(index)] else if scrollDelta < 0.0 then [PreviousIndex(index)] else [])
    + Pressed(keyDown, HotbarSize)
  }

  /** No key pressed means no key selection; otherwise the last key selected
      is `LastPressed`'s. */
  lemma {:induction false} PressedLast(keyDown: seq<bool>, n: nat, otherwise: int)
    requires n <= |keyDown|
    ensures Pressed(keyDown, n) == [] <==> forall k :: 0 <= k < n ==> !keyDown[k]
    ensures Pressed(keyDown, n) != [] ==> Pressed(keyDown, n)[|Pressed(keyDown, n)| - 1] == LastPressed(keyDown, n, otherwise)
  {
    if n > 0 {
      PressedLast(keyDown, n - 1, otherwise);
    }
  }

  // ---------------------------------------------------------------------------
  // The component
  // ---------------------------------------------------------------------------

  class HandItems {
    const holdableHandItems: seq<GameObj>
    const bowPrefab: Option<GameObj>
    var currentItemPrefab: Option<GameObj>
    var currentHotbarIndex: int
    var hasBowInHand: bool
    /** The objects that are active in the scene (`SetActive`). */
    var active: set<nat>

    constructor (holdableHandItems: seq<GameObj>, bowPrefab: Option<GameObj>, active: set<nat>)
      ensures this.holdableHandItems == holdableHandItems && this.bowPrefab == bowPrefab
      ensures this.active == active
      ensures currentItemPrefab == None && currentHotbarIndex == 0 && !hasBowInHand
    {
      this.holdableHandItems := holdableHandItems;
      this.bowPrefab := bowPrefab;
      this.active := active;
      currentItemPrefab := None;
      currentHotbarIndex := 0;
      hasBowInHand := false;
    }

    function HandState(): Hand
      reads this
    {
      Hand(currentItemPrefab, active, hasBowInHand)
    }

    predicate Valid()
      reads this
    {
      && IdentifiedById(holdableHandItems)
      && ValidHand(holdableHandItems, bowPrefab, HandState())
      && 0 <= currentHotbarIndex < HotbarSize
    }

    /** `GetHandItemIndexForHotbarItem(item)`. */
    method GetHandItemIndexForHotbarItem(item: Option<HotbarItem>) returns (index: int)
      ensures index == HandItemIndex(holdableHandItems, item, 0)
    {
      if item == None {
        return -1;
      }
      var i := 0;
      while i < |holdableHandItems|
        invariant 0 <= i <= |holdableHandItems|
        invariant HandItemIndex(holdableHandItems, item, i) == HandItemIndex(holdableHandItems, item, 0)
      {
        if Contains(holdableHandItems[i].name, item.value.Name()) {
          return i;
        }
        i := i + 1;
      }
      return -1;
    }

    /** `SelectHotbarSlot(slotIndex)`; `slots` holds the items of the hotbar
        slots found under the hotbar. */
    method SelectHotbarSlot(slotIndex: int, slots: seq<Option<HotbarItem>>)
      requires 0 <= slotIndex
      modifies this
      ensures currentHotbarIndex == slotIndex
      ensures HandState() == AfterSelect(holdableHandItems, bowPrefab, old(HandState()), slotIndex, slots)
      ensures slotIndex >= |slots| ==>
        currentItemPrefab == old(currentItemPrefab) && hasBowInHand == old(hasBowInHand) && active == old(active)
      ensures slotIndex < |slots| ==>
        var h := HandItemIndex(holdableHandItems, slots[slotIndex], 0);
        var off := if old(currentItemPrefab).Some? then old(active) - {old(currentItemPrefab).value.id} else old(active);
        if h >= 0 then
          currentItemPrefab == Some(holdableHandItems[h]) && active == off + {holdableHandItems[h].id}
          && (hasBowInHand <==> Some(holdableHandItems[h]) == bowPrefab)
        else
          currentItemPrefab == None && active == off && !hasBowInHand
      ensures old(Valid()) && slotIndex < HotbarSize ==> Valid()
    {
      ghost var h0 := HandState();
      currentHotbarIndex := slotIndex;
      if slotIndex < |slots| {
        if currentItemPrefab != None {
          active := active - {currentItemPrefab.value.id};
        }
        var handItemIndex := GetHandItemIndexForHotbarItem(slots[slotIndex]);
        if handItemIndex >= 0 && handItemIndex < |holdableHandItems| {
          currentItemPrefab := Some(holdableHandItems[handItemIndex]);
          active := active + {currentItemPrefab.value.id};
          hasBowInHand := currentItemPrefab == bowPrefab;
        } else {
          currentItemPrefab := None;
          hasBowInHand := false;
        }
      }
      if old(Valid()) {
        SelectFacts(holdableHandItems, bowPrefab, h0, slotIndex, slots);
      }
    }

    /** `SelectNextHotbarSlot()`. */
    method SelectNextHotbarSlot(slots: seq<Option<HotbarItem>>)
      requires Valid()
      modifies this
      ensures currentHotbarIndex == NextIndex(old(currentHotbarIndex))
      ensures HandState() == AfterSelect(holdableHandItems, bowPrefab, old(HandState()), currentHotbarIndex, slots)
      ensures Valid()
    {
      currentHotbarIndex := (currentHotbarIndex + 1) % HotbarSize;
      SelectHotbarSlot(currentHotbarIndex, slots);
    }

    /** `SelectPreviousHotbarSlot()`. */
    method SelectPreviousHotbarSlot(slots: seq<Option<HotbarItem>>)
      requires Valid()
      modifies this
      ensures currentHotbarIndex == PreviousIndex(old(currentHotbarIndex))
      ensures HandState() == AfterSelect(holdableHandItems, bowPrefab, old(HandState()), currentHotbarIndex, slots)
      ensures Valid()
    {
      currentHotbarIndex := (currentHotbarIndex - 1 + HotbarSize) % HotbarSize;
      SelectHotbarSlot(currentHotbarIndex, slots);
    }

    /** `Start()`: deactivate every holdable object, then select slot 0. */
    method Start(slots: seq<Option<HotbarItem>>)
      requires currentItemPrefab == None && !hasBowInHand
      requires IdentifiedById(holdableHandItems)
      modifies this
      ensures currentHotbarIndex == 0
      ensures var cleared := old(active) - set k | 0 <= k < |holdableHandItems| :: holdableHandItems[k].id;
        HandState() == AfterSelect(holdableHandItems, bowPrefab, Hand(None, cleared, false), 0, slots)
      ensures forall k :: 0 <= k < |holdableHandItems| && Some(holdableHandItems[k]) != currentItemPrefab ==>
        holdableHandItems[k].id !in active
      ensures Valid()
    {
      var i := 0;
      while i < |holdableHandItems|
        invariant 0 <= i <= |holdableHandItems|
        invariant currentItemPrefab == None && !hasBowInHand
        invariant active == old(active) - set k | 0 <= k < i :: holdableHandItems[k].id
      {
        active := active - {holdableHandItems[i].id};
        i := i + 1;
      }
      currentHotbarIndex := 0;
      SelectHotbarSlot(0, slots);
    }

    /** The number-key loop of `Update()`: each key that went down selects
        its slot, in order. */
    method SelectPressedSlots(keyDown: seq<bool>, slots: seq<Option<HotbarItem>>)
      requires Valid() && |keyDown| == HotbarSize
      modifies this
      ensures Valid()
      ensures currentHotbarIndex == LastPressed(keyDown, HotbarSize, old(currentHotbarIndex))
      ensures HandState() == SelectAll(holdableHandItems, bowPrefab, old(HandState()), Pressed(keyDown, HotbarSize), slots)
    {
      var i := 0;
      while i < HotbarSize
        invariant 0 <= i <= HotbarSize
        invariant Valid()
        invariant currentHotbarIndex == LastPressed(keyDown, i, old(currentHotbarIndex))
        invariant HandState() == SelectAll(holdableHandItems, bowPrefab, old(HandState()), Pressed(keyDown, i), slots)
      {
        if keyDown[i] {
          ghost var done := Pressed(keyDown, i);
          SelectHotbarSlot(i, slots);
          assert Pressed(keyDown, i + 1) == done + [i];
          assert (done + [i])[..|done|] == done;
          assert SelectAll(holdableHandItems, bowPrefab, old(HandState()), done + [i], slots)
              == AfterSelect(holdableHandItems, bowPrefab,
                             SelectAll(holdableHandItems, bowPrefab, old(HandState()), done, slots), i, slots);
          assert HandState() == SelectAll(holdableHandItems, bowPrefab, old(HandState()), Pressed(keyDown, i + 1), slots);
        } else {
          assert Pressed(keyDown, i + 1) == Pressed(keyDown, i);
          assert HandState() == SelectAll(holdableHandItems, bowPrefab, old(HandState()), Pressed(keyDown, i + 1), slots);
        }
        i := i + 1;
      }
    }

    /** `Update()` with this frame's scroll delta and which of the number keys
        1 to 9 went down: the selections are made in turn, so the last one
        within the slots decides the hand, and without any the hand is kept. */
    method Update(scrollDelta: real, keyDown: seq<bool>, slots: seq<Option<HotbarItem>>)
      requires Valid() && |keyDown| == HotbarSize
      modifies this
      ensures Valid()
      ensures var scrolled := if scrollDelta > 0.0 then NextIndex(old(currentHotbarIndex))
                              else if scrollDelta < 0.0 then PreviousIndex(old(currentHotbarIndex))
                              else old(currentHotbarIndex);
        currentHotbarIndex == LastPressed(keyDown, HotbarSize, scrolled)
      ensures HandState() == SelectAll(holdableHandItems, bowPrefab, old(HandState()),
                                       Selections(scrollDelta, keyDown, old(currentHotbarIndex)), slots)
      ensures Selections(scrollDelta, keyDown, old(currentHotbarIndex)) == [] ==>
        HandState() == old(HandState()) && currentHotbarIndex == old(currentHotbarIndex)
      ensures Selections(scrollDelta, keyDown, old(currentHotbarIndex)) != [] && currentHotbarIndex < |slots| ==>
        HandState() == AfterSelect(holdableHandItems, bowPrefab, old(HandState()), currentHotbarIndex, slots)
    {
      ghost var h0 := HandState();
      ghost var pre: seq<nat> := [];
      if scrollDelta > 0.0 {
        SelectNextHotbarSlot(slots);
        pre := [currentHotbarIndex];
      } else if scrollDelta < 0.0 {
        SelectPreviousHotbarSlot(slots);
        pre := [currentHotbarIndex];
      }
      assert pre != [] ==> pre[..0] == [];
      assert HandState() == SelectAll(holdableHandItems, bowPrefab, h0, pre, slots);
      ghost var scrolled := currentHotbarIndex;
      ghost var mid := HandState();
      SelectPressedSlots(keyDown, slots);
      SelectAllAppend(holdableHandItems, bowPrefab, h0, pre, Pressed(keyDown, HotbarSize), slots);
      ghost var all := Selections(scrollDelta, keyDown, old(currentHotbarIndex));
      assert all == pre + Pressed(keyDown, HotbarSize);
      PressedLast(keyDown, HotbarSize, scrolled);
      if all != [] && currentHotbarIndex < |slots| {
        assert all[|all| - 1] == currentHotbarIndex;
        LastSelectionWins(holdableHandItems, bowPrefab, h0, all, slots);
      }
    }

    /** `GetHasBowInHand()`. */
    function GetHasBowInHand(): (b: bool)
      reads this
      requires Valid()
      ensures b <==> currentItemPrefab.Some? && currentItemPrefab == bowPrefab
    {
      hasBowInHand
    }
  }

  /** The last of the first `n` keys that went down, or `otherwise`. */
  function LastPressed(keyDown: seq<bool>, n: nat, otherwise: int): (r: int)
    requires n <= |keyDown|
    ensures (exists k :: 0 <= k < n && keyDown[k]) ==> 0 <= r < n && keyDown[r] && forall k :: r < k < n ==> !keyDown[k]
    ensures (forall k :: 0 <= k < n ==> !keyDown[k]) ==> r == otherwise
  {
    if n == 0 then otherwise
    else if keyDown[n - 1] then n - 1
    else LastPressed(keyDown, n - 1, otherwise)
  }
}
