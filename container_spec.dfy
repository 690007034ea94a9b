/** Specification of `ItemContainer` on the sequence of its slots: each
    operation of the container is a function from the old slots (plus the
    operation's arguments) to the new slots, written index by index so that
    each step of the C# `for` loop is one unfolding. The lemmas state what the
    operations promise about quantities, stack limits and the other items. */
module ContainerSpec {
  import opened Common
  import opened Items

  /** Every slot is well formed (see `SlotOk`). */
  predicate AllOk(s: seq<ItemSlot>) {
    forall k :: 0 <= k < |s| ==> SlotOk(s[k])
  }

  function Min(a: int, b: int): int {
    if a <= b then a else b
  }

  // ---------------------------------------------------------------------------
  // Totals (GetTotalQuantity and HasItem)
  // ---------------------------------------------------------------------------

  /** The quantity of `x` summed over the slots. */
  function Total(s: seq<ItemSlot>, x: Item): int
    decreases |s|
  {
    if |s| == 0 then 0 else Held(s[0], x) + Total(s[1..], x)
  }

  /** Some slot holds `x`. */
  predicate Holds(s: seq<ItemSlot>, x: Item) {
    exists k :: 0 <= k < |s| && s[k].item == Some(x)
  }

  lemma {:induction false} TotalSnoc(s: seq<ItemSlot>, a: ItemSlot, x: Item)
    ensures Total(s + [a], x) == Total(s, x) + Held(a, x)
    decreases |s|
  {
    if |s| == 0 {
      assert [a][1..] == [];
    } else {
      assert (s + [a])[1..] == s[1..] + [a];
      TotalSnoc(s[1..], a, x);
    }
  }

  lemma {:induction false} TotalSplit(s: seq<ItemSlot>, i: nat, x: Item)
    requires i < |s|
    ensures Total(s[i..], x) == Held(s[i], x) + Total(s[i + 1..], x)
  {
    assert s[i..][1..] == s[i + 1..];
  }

  /** Replacing one slot changes the total by the difference of the two slots. */
  lemma {:induction false} TotalUpdate(s: seq<ItemSlot>, k: nat, v: ItemSlot, x: Item)
    requires k < |s|
    ensures Total(s[k := v], x) == Total(s, x) - Held(s[k], x) + Held(v, x)
    decreases |s|
  {
    if k > 0 {
      TotalUpdate(s[1..], k - 1, v, x);
      assert s[k := v][1..] == s[1..][k - 1 := v];
    } else {
      assert s[k := v][1..] == s[1..];
    }
  }

  /** Sequences that agree slot by slot on the amount of `x` have equal totals. */
  lemma {:induction false} TotalPointwise(s: seq<ItemSlot>, t: seq<ItemSlot>, x: Item)
    requires |s| == |t|
    requires forall k :: 0 <= k < |s| ==> Held(s[k], x) == Held(t[k], x)
    ensures Total(s, x) == Total(t, x)
    decreases |s|
  {
    if |s| > 0 {
      TotalPointwise(s[1..], t[1..], x);
    }
  }

  lemma {:induction false} TotalNonNegative(s: seq<ItemSlot>, x: Item)
    requires AllOk(s)
    ensures Total(s, x) >= 0
    decreases |s|
  {
    if |s| > 0 {
      TotalNonNegative(s[1..], x);
    }
  }

  /** In a well-formed container the item is present exactly when its total
      is positive. */
  lemma {:induction false} HoldsIffPositiveTotal(s: seq<ItemSlot>, x: Item)
    requires AllOk(s)
    ensures Holds(s, x) <==> Total(s, x) > 0
    decreases |s|
  {
    if |s| > 0 {
      HoldsIffPositiveTotal(s[1..], x);
      TotalNonNegative(s[1..], x);
      if Holds(s, x) && s[0].item != Some(x) {
        var k :| 0 <= k < |s| && s[k].item == Some(x);
        assert s[1..][k - 1].item == Some(x);
      }
      if Holds(s[1..], x) {
        var k :| 0 <= k < |s| - 1 && s[1..][k].item == Some(x);
        assert s[k + 1].item == Some(x);
      }
    }
  }

  // ---------------------------------------------------------------------------
  // AddItem
  // ---------------------------------------------------------------------------

  /** The state of `AddItem` between loop steps: the slots, the quantity still
      to place, and whether the method has already returned. */
  datatype Stage = Stage(slots: seq<ItemSlot>, remaining: int, done: bool)

  /** First loop of `AddItem`, from slot `i` on: each stack of `x` is topped up,
      by at most its free space; the method returns as soon as the rest fits. */
  function TopUpAt(s: seq<ItemSlot>, x: Item, q: int, i: nat): (r: Stage)
    requires i <= |s|
    ensures |r.slots| == |s|
    decreases |s| - i
  {
    if i == |s| then Stage(s, q, false)
    else if s[i].item == Some(x) then
      var space := x.maxStackSize - s[i].quantity;
      if q <= space then Stage(s[i := s[i].(quantity := s[i].quantity + q)], 0, true)
      else if space > 0 then TopUpAt(s[i := s[i].(quantity := s[i].quantity + space)], x, q - space, i + 1)
      else TopUpAt(s, x, q, i + 1)
    else TopUpAt(s, x, q, i + 1)
  }

  /** Second loop of `AddItem`, from slot `i` on: each empty slot receives a
      full stack, or the whole rest when it fits, and then the method returns. */
  function FillAt(s: seq<ItemSlot>, x: Item, q: int, i: nat): (r: Stage)
    requires i <= |s|
    ensures |r.slots| == |s|
    decreases |s| - i
  {
    if i == |s| then Stage(s, q, false)
    else if s[i].item == None then
      if q <= x.maxStackSize then Stage(s[i := ItemSlot(Some(x), q)], 0, true)
      else FillAt(s[i := ItemSlot(Some(x), x.maxStackSize)], x, q - x.maxStackSize, i + 1)
    else FillAt(s, x, q, i + 1)
  }

  /** `AddItem(new ItemSlot(x, q))`: the new slots and the quantity returned. */
  function Add(s: seq<ItemSlot>, x: Item, q: int): Stage {
    var t := TopUpAt(s, x, q, 0);
    if t.done then t else FillAt(t.slots, x, t.remaining, 0)
  }

  /** Free space on the stacks of `x`. */
  function StackRoom(s: seq<ItemSlot>, x: Item): int
    decreases |s|
  {
    if |s| == 0 then 0
    else (if s[0].item == Some(x) then x.maxStackSize - s[0].quantity else 0) + StackRoom(s[1..], x)
  }

  /** Number of empty slots. */
  function Empties(s: seq<ItemSlot>): nat
    decreases |s|
  {
    if |s| == 0 then 0 else (if s[0].item == None then 1 else 0) + Empties(s[1..])
  }

  /** How much of `x` the container can still take. */
  function Room(s: seq<ItemSlot>, x: Item): int {
    StackRoom(s, x) + Empties(s) * x.maxStackSize
  }

  lemma {:induction false} StackRoomNonNegative(s: seq<ItemSlot>, x: Item)
    requires AllOk(s)
    ensures StackRoom(s, x) >= 0
    decreases |s|
  {
    if |s| > 0 {
      StackRoomNonNegative(s[1..], x);
    }
  }

  lemma StackRoomSplit(s: seq<ItemSlot>, i: nat, x: Item)
    requires i < |s|
    ensures StackRoom(s[i..], x) == (if s[i].item == Some(x) then x.maxStackSize - s[i].quantity else 0) + StackRoom(s[i + 1..], x)
    ensures Empties(s[i..]) == (if s[i].item == None then 1 else 0) + Empties(s[i + 1..])
  {
    assert s[i..][1..] == s[i + 1..];
  }

  /** The first loop only raises quantities on stacks of `x` from slot `i`
      on, never past the stack limit. */
  lemma {:induction false} TopUpShape(s: seq<ItemSlot>, x: Item, q: int, i: nat)
    requires AllOk(s) && i <= |s| && q >= 1
    ensures AllOk(TopUpAt(s, x, q, i).slots)
    ensures forall k :: 0 <= k < |s| ==> TopUpAt(s, x, q, i).slots[k].item == s[k].item
    ensures forall k :: 0 <= k < |s| && (k < i || s[k].item != Some(x)) ==> TopUpAt(s, x, q, i).slots[k] == s[k]
    decreases |s| - i
  {
    if i < |s| && s[i].item == Some(x) {
      var space := x.maxStackSize - s[i].quantity;
      if q > space && space > 0 {
        TopUpShape(s[i := s[i].(quantity := s[i].quantity + space)], x, q - space, i + 1);
      } else if q > space {
        TopUpShape(s, x, q, i + 1);
      }
    } else if i < |s| {
      TopUpShape(s, x, q, i + 1);
    }
  }

  /** The first loop places exactly what fits on the existing stacks of `x`
      from slot `i` on, and returns early exactly when everything fit. */
  lemma {:induction false} TopUpCount(s: seq<ItemSlot>, x: Item, q: int, i: nat)
    requires AllOk(s) && i <= |s| && q >= 1
    ensures var r := TopUpAt(s, x, q, i);
      && Total(r.slots, x) + r.remaining == Total(s, x) + q
      && (r.done <==> q <= StackRoom(s[i..], x))
      && r.remaining == (if r.done then 0 else q - StackRoom(s[i..], x))
    decreases |s| - i
  {
    if i < |s| {
      StackRoomSplit(s, i, x);
      StackRoomNonNegative(s[i + 1..], x);
      assert AllOk(s[i + 1..]);
      if s[i].item == Some(x) {
        var space := x.maxStackSize - s[i].quantity;
        if q <= space {
          TotalUpdate(s, i, s[i].(quantity := s[i].quantity + q), x);
        } else if space > 0 {
          var s' := s[i := s[i].(quantity := s[i].quantity + space)];
          TotalUpdate(s, i, s'[i], x);
          TopUpCount(s', x, q - space, i + 1);
          assert s'[i + 1..] == s[i + 1..];
        } else {
          TopUpCount(s, x, q, i + 1);
        }
      } else {
        TopUpCount(s, x, q, i + 1);
      }
    }
  }

  /** When the first loop runs to the end, every stack of `x` it passed is
      full. */
  lemma {:induction false} TopUpFull(s: seq<ItemSlot>, x: Item, q: int, i: nat)
    requires AllOk(s) && i <= |s| && q >= 1
    requires !TopUpAt(s, x, q, i).done
    ensures forall k :: i <= k < |s| && s[k].item == Some(x) ==> TopUpAt(s, x, q, i).slots[k].quantity == x.maxStackSize
    decreases |s| - i
  {
    if i < |s| && s[i].item == Some(x) {
      var space := x.maxStackSize - s[i].quantity;
      if space > 0 {
        var s' := s[i := s[i].(quantity := s[i].quantity + space)];
        TopUpFull(s', x, q - space, i + 1);
        TopUpShape(s', x, q - space, i + 1);
      } else {
        TopUpFull(s, x, q, i + 1);
        TopUpShape(s, x, q, i + 1);
      }
    } else if i < |s| {
      TopUpFull(s, x, q, i + 1);
    }
  }

  /** The second loop only fills empty slots from slot `i` on, with `x`,
      never past the stack limit. */
  lemma {:induction false} FillShape(s: seq<ItemSlot>, x: Item, q: int, i: nat)
    requires AllOk(s) && i <= |s| && q >= 1
    ensures AllOk(FillAt(s, x, q, i).slots)
    ensures forall k :: 0 <= k < |s| && (k < i || s[k].item != None) ==> FillAt(s, x, q, i).slots[k] == s[k]
    ensures forall k :: 0 <= k < |s| && s[k].item == None ==> FillAt(s, x, q, i).slots[k].item in {None, Some(x)}
    decreases |s| - i
  {
    if i < |s| && s[i].item == None && q > x.maxStackSize {
      FillShape(s[i := ItemSlot(Some(x), x.maxStackSize)], x, q - x.maxStackSize, i + 1);
    } else if i < |s| && s[i].item != None {
      FillShape(s, x, q, i + 1);
    }
  }

  /** The second loop places what fits in the empty slots from slot `i` on,
      a full stack per slot, and returns early exactly when everything fit. */
  lemma {:induction false} FillCount(s: seq<ItemSlot>, x: Item, q: int, i: nat)
    requires AllOk(s) && i <= |s| && q >= 1
    ensures var r := FillAt(s, x, q, i);
      && Total(r.slots, x) + r.remaining == Total(s, x) + q
      && (r.done <==> q <= Empties(s[i..]) * x.maxStackSize)
      && r.remaining == (if r.done then 0 else q - Empties(s[i..]) * x.maxStackSize)
    decreases |s| - i
  {
    if i < |s| {
      StackRoomSplit(s, i, x);
      if s[i].item == None {
        var m := x.maxStackSize;
        var e := Empties(s[i + 1..]);
        assert Empties(s[i..]) * m == m + e * m by {
          assert Empties(s[i..]) == 1 + e;
        }
        assert e * m >= 0;
        if q <= m {
          TotalUpdate(s, i, ItemSlot(Some(x), q), x);
        } else {
          var s' := s[i := ItemSlot(Some(x), m)];
          TotalUpdate(s, i, s'[i], x);
          FillCount(s', x, q - m, i + 1);
          assert s'[i + 1..] == s[i + 1..];
        }
      } else {
        FillCount(s, x, q, i + 1);
      }
    }
  }

  /** `AddItem` for a positive quantity: nothing is lost or created, the
      remainder is exactly what did not fit, stack limits hold afterwards,
      slots of other items are untouched, and empty slots are used only once
      every existing stack of the item is full. */
  lemma AddFacts(s: seq<ItemSlot>, x: Item, q: int)
    requires AllOk(s) && q >= 1
    ensures var r := Add(s, x, q);
      && |r.slots| == |s|
      && AllOk(r.slots)
      && Total(r.slots, x) + r.remaining == Total(s, x) + q
      && r.remaining == (if q <= Room(s, x) then 0 else q - Room(s, x))
      && (forall k :: 0 <= k < |s| && s[k].item.Some? && s[k].item != Some(x) ==> r.slots[k] == s[k])
      && ((exists k :: 0 <= k < |s| && s[k].item == None && r.slots[k].item != None) ==>
            forall k :: 0 <= k < |s| && s[k].item == Some(x) ==> r.slots[k].quantity == x.maxStackSize)
  {
    var t := TopUpAt(s, x, q, 0);
    TopUpShape(s, x, q, 0);
    TopUpCount(s, x, q, 0);
    assert s[0..] == s;
    StackRoomNonNegative(s, x);
    if !t.done {
      TopUpFull(s, x, q, 0);
      FillShape(t.slots, x, t.remaining, 0);
      FillCount(t.slots, x, t.remaining, 0);
      assert t.slots[0..] == t.slots;
      EmptiesSameItems(s, t.slots);
    }
  }

  lemma {:induction false} EmptiesSameItems(s: seq<ItemSlot>, t: seq<ItemSlot>)
    requires |s| == |t|
    requires forall k :: 0 <= k < |s| ==> s[k].item == t[k].item
    ensures Empties(s) == Empties(t)
    decreases |s|
  {
    if |s| > 0 {
      EmptiesSameItems(s[1..], t[1..]);
    }
  }

  /** `AddItem` leaves the total of every other item as it was. */
  lemma AddKeepsOtherTotals(s: seq<ItemSlot>, x: Item, q: int, y: Item)
    requires AllOk(s) && q >= 1 && y != x
    ensures Total(Add(s, x, q).slots, y) == Total(s, y)
  {
    var t := TopUpAt(s, x, q, 0);
    TopUpShape(s, x, q, 0);
    TopUpCount(s, x, q, 0);
    AddFacts(s, x, q);
    var r := Add(s, x, q);
    if !t.done {
      FillShape(t.slots, x, t.remaining, 0);
    }
    forall k | 0 <= k < |s| ensures Held(r.slots[k], y) == Held(s[k], y) {
      if s[k].item != Some(x) && s[k].item != None {
        assert r.slots[k] == s[k];
      }
    }
    TotalPointwise(r.slots, s, y);
  }

  // ---------------------------------------------------------------------------
  // RemoveItem, as written and as intended
  // ---------------------------------------------------------------------------

  /** `RemoveItem` exactly as the loop is written, from slot `i` on. A slot
      holding less than the request is emptied and the request shrinks; a slot
      holding at least the request is decremented and the method returns only
      if that emptied it, so after a partial decrement the scan goes on and
      later stacks are decremented by the full request again. */
  function RemoveScanAt(s: seq<ItemSlot>, x: Option<Item>, need: int, i: nat): (r: seq<ItemSlot>)
    requires i <= |s|
    ensures |r| == |s|
    decreases |s| - i
  {
    if i == |s| then s
    else if s[i].item.Some? && s[i].item == x then
      if s[i].quantity < need then RemoveScanAt(s[i := EmptySlot], x, need - s[i].quantity, i + 1)
      else
        var left := s[i].quantity - need;
        if left == 0 then s[i := EmptySlot]
        else RemoveScanAt(s[i := s[i].(quantity := left)], x, need, i + 1)
    else RemoveScanAt(s, x, need, i + 1)
  }

  /** The removal the method evidently intends: stop as soon as the request
      has been met. */
  function RemoveUpToAt(s: seq<ItemSlot>, x: Option<Item>, need: int, i: nat): (r: seq<ItemSlot>)
    requires i <= |s|
    ensures |r| == |s|
    decreases |s| - i
  {
    if i == |s| then s
    else if s[i].item.Some? && s[i].item == x then
      if s[i].quantity < need then RemoveUpToAt(s[i := EmptySlot], x, need - s[i].quantity, i + 1)
      else
        var left := s[i].quantity - need;
        if left == 0 then s[i := EmptySlot] else s[i := s[i].(quantity := left)]
    else RemoveUpToAt(s, x, need, i + 1)
  }

  /** The corrected removal takes exactly the request, or everything there is
      when the container holds less; all else is unchanged and the slots stay
      well formed. */
  lemma RemoveUpToFacts(s: seq<ItemSlot>, x: Item, need: int, i: nat)
    requires AllOk(s) && i <= |s| && need >= 0
    ensures var r := RemoveUpToAt(s, Some(x), need, i);
      && |r| == |s|
      && AllOk(r)
      && (forall k :: 0 <= k < |s| && (k < i || s[k].item != Some(x)) ==> r[k] == s[k])
      && Total(r, x) == Total(s, x) - Min(need, Total(s[i..], x))
  {
    RemoveUpToShape(s, x, need, i);
    RemoveUpToTotal(s, x, need, i);
  }

  /** The corrected removal keeps the slots well formed and touches only
      stacks of the item from slot `i` on. */
  lemma {:induction false} RemoveUpToShape(s: seq<ItemSlot>, x: Item, need: int, i: nat)
    requires AllOk(s) && i <= |s| && need >= 0
    ensures var r := RemoveUpToAt(s, Some(x), need, i);
      && AllOk(r)
      && (forall k :: 0 <= k < |s| && (k < i || s[k].item != Some(x)) ==> r[k] == s[k])
    decreases |s| - i
  {
    if i < |s| {
      if s[i].item == Some(x) && s[i].quantity < need {
        RemoveUpToShape(s[i := EmptySlot], x, need - s[i].quantity, i + 1);
      } else if s[i].item != Some(x) {
        RemoveUpToShape(s, x, need, i + 1);
      }
    }
  }

  /** The corrected removal takes the request, or all there is from slot `i`
      on when that is less. */
  lemma {:induction false} RemoveUpToTotal(s: seq<ItemSlot>, x: Item, need: int, i: nat)
    requires AllOk(s) && i <= |s| && need >= 0
    ensures Total(RemoveUpToAt(s, Some(x), need, i), x) == Total(s, x) - Min(need, Total(s[i..], x))
    decreases |s| - i
  {
    if i < |s| {
      TotalSplit(s, i, x);
      TotalNonNegative(s[i + 1..], x);
      assert AllOk(s[i + 1..]);
      if s[i].item == Some(x) {
        if s[i].quantity < need {
          var s' := s[i := EmptySlot];
          TotalUpdate(s, i, EmptySlot, x);
          RemoveUpToTotal(s', x, need - s[i].quantity, i + 1);
          assert s'[i + 1..] == s[i + 1..];
        } else {
          var left := s[i].quantity - need;
          TotalUpdate(s, i, if left == 0 then EmptySlot else s[i].(quantity := left), x);
        }
      } else {
        RemoveUpToTotal(s, x, need, i + 1);
      }
    }
  }

  /** Removing an item that is present in at least the requested amount lowers
      its total by exactly that amount. */
  lemma RemoveUpToExact(s: seq<ItemSlot>, x: Item, need: int)
    requires AllOk(s) && 0 <= need <= Total(s, x)
    ensures Total(RemoveUpToAt(s, Some(x), need, 0), x) == Total(s, x) - need
    ensures forall y :: y != x ==> Total(RemoveUpToAt(s, Some(x), need, 0), y) == Total(s, y)
  {
    RemoveUpToFacts(s, x, need, 0);
    RemoveUpToEmptyItems(s, x, need, 0);
    assert s[0..] == s;
    var r := RemoveUpToAt(s, Some(x), need, 0);
    forall y | y != x ensures Total(r, y) == Total(s, y) {
      forall k | 0 <= k < |s| ensures Held(r[k], y) == Held(s[k], y) {
        if s[k].item != Some(x) {
          assert r[k] == s[k];
        } else {
          assert r[k].item == None || r[k].item == Some(x);
        }
      }
      TotalPointwise(r, s, y);
    }
  }

  lemma {:induction false} RemoveUpToEmptyItems(s: seq<ItemSlot>, x: Item, need: int, i: nat)
    requires AllOk(s) && i <= |s| && need >= 0
    ensures forall k :: 0 <= k < |s| && s[k].item in {None, Some(x)} ==>
      RemoveUpToAt(s, Some(x), need, i)[k].item in {None, Some(x)}
    decreases |s| - i
  {
    if i < |s| {
      if s[i].item == Some(x) && s[i].quantity < need {
        RemoveUpToEmptyItems(s[i := EmptySlot], x, need - s[i].quantity, i + 1);
      } else if s[i].item != Some(x) {
        RemoveUpToEmptyItems(s, x, need, i + 1);
      }
    }
  }

  /** A removal request without an item (a material that was not found)
      changes nothing, whichever version of the loop runs. */
  lemma {:induction false} RemoveNothing(s: seq<ItemSlot>, need: int, i: nat)
    requires i <= |s|
    ensures RemoveUpToAt(s, None, need, i) == s
    ensures RemoveScanAt(s, None, need, i) == s
    decreases |s| - i
  {
    if i < |s| {
      RemoveNothing(s, need, i + 1);
    }
  }

  /** The loop as written never removes less than the corrected one: it
      removes at least the request, or everything when there is less. */
  lemma RemoveScanRemovesAtLeast(s: seq<ItemSlot>, x: Item, need: int, i: nat)
    requires AllOk(s) && i <= |s| && need >= 0
    ensures var r := RemoveScanAt(s, Some(x), need, i);
      && |r| == |s|
      && AllOk(r)
      && (forall k :: 0 <= k < |s| && (k < i || s[k].item != Some(x)) ==> r[k] == s[k])
      && Total(r, x) <= Total(s, x) - Min(need, Total(s[i..], x))
  {
    RemoveScanShape(s, x, need, i);
    RemoveScanTotal(s, x, need, i);
  }

  /** The loop as written keeps the slots well formed and touches only stacks
      of the item from slot `i` on. */
  lemma {:induction false} RemoveScanShape(s: seq<ItemSlot>, x: Item, need: int, i: nat)
    requires AllOk(s) && i <= |s| && need >= 0
    ensures var r := RemoveScanAt(s, Some(x), need, i);
      && AllOk(r)
      && (forall k :: 0 <= k < |s| && (k < i || s[k].item != Some(x)) ==> r[k] == s[k])
    decreases |s| - i
  {
    if i < |s| {
      if s[i].item == Some(x) {
        if s[i].quantity < need {
          RemoveScanShape(s[i := EmptySlot], x, need - s[i].quantity, i + 1);
        } else if s[i].quantity - need != 0 {
          RemoveScanShape(s[i := s[i].(quantity := s[i].quantity - need)], x, need, i + 1);
        }
      } else {
        RemoveScanShape(s, x, need, i + 1);
      }
    }
  }

  /** The loop as written removes at least the request, or all there is from
      slot `i` on when that is less. */
  lemma {:induction false} RemoveScanTotal(s: seq<ItemSlot>, x: Item, need: int, i: nat)
    requires AllOk(s) && i <= |s| && need >= 0
    ensures Total(RemoveScanAt(s, Some(x), need, i), x) <= Total(s, x) - Min(need, Total(s[i..], x))
    decreases |s| - i
  {
    if i < |s| {
      TotalSplit(s, i, x);
      TotalNonNegative(s[i + 1..], x);
      assert AllOk(s[i + 1..]);
      if s[i].item == Some(x) {
        if s[i].quantity < need {
          var s' := s[i := EmptySlot];
          TotalUpdate(s, i, EmptySlot, x);
          RemoveScanTotal(s', x, need - s[i].quantity, i + 1);
          assert s'[i + 1..] == s[i + 1..];
        } else {
          var left := s[i].quantity - need;
          if left == 0 {
            TotalUpdate(s, i, EmptySlot, x);
          } else {
            var s' := s[i := s[i].(quantity := left)];
            TotalUpdate(s, i, s'[i], x);
            RemoveScanShape(s', x, need, i + 1);
            RemoveScanTotal(s', x, need, i + 1);
            assert s'[i + 1..] == s[i + 1..];
            TotalNonNegative(s'[i + 1..], x);
            TotalNonNegative(RemoveScanAt(s', Some(x), need, i + 1), x);
          }
        }
      } else {
        RemoveScanTotal(s, x, need, i + 1);
      }
    }
  }

  /** The loop as written over-removes: two stacks of 5 and a request for 3
      leave 2 + 2 instead of 2 + 5. */
  lemma RemoveScanOverRemoves()
    ensures var wood := Item(1, "Wood", "Wood", 10);
      var s := [ItemSlot(Some(wood), 5), ItemSlot(Some(wood), 5)];
      && RemoveScanAt(s, Some(wood), 3, 0) == [ItemSlot(Some(wood), 2), ItemSlot(Some(wood), 2)]
      && Total(RemoveScanAt(s, Some(wood), 3, 0), wood) == 4
      && Total(s, wood) - 3 == 7
      && RemoveUpToAt(s, Some(wood), 3, 0) == [ItemSlot(Some(wood), 2), ItemSlot(Some(wood), 5)]
  {
    var wood := Item(1, "Wood", "Wood", 10);
    var s := [ItemSlot(Some(wood), 5), ItemSlot(Some(wood), 5)];
    var s1 := s[0 := ItemSlot(Some(wood), 2)];
    assert RemoveScanAt(s, Some(wood), 3, 0) == RemoveScanAt(s1, Some(wood), 3, 1);
    var s2 := s1[1 := ItemSlot(Some(wood), 2)];
    assert RemoveScanAt(s1, Some(wood), 3, 1) == RemoveScanAt(s2, Some(wood), 3, 2);
    assert s2 == [ItemSlot(Some(wood), 2), ItemSlot(Some(wood), 2)];
    assert Total(s2[1..], wood) == 2;
    assert Total(s[1..], wood) == 5;
    assert RemoveUpToAt(s, Some(wood), 3, 0) == s1;
  }

  /** The loop as written touches no stack of another item: a slot that was
      empty or held `x` still does, and other items keep their totals. */
  lemma {:induction false} RemoveScanEmptyItems(s: seq<ItemSlot>, x: Item, need: int, i: nat)
    requires AllOk(s) && i <= |s| && need >= 0
    ensures forall k :: 0 <= k < |s| && s[k].item in {None, Some(x)} ==>
      RemoveScanAt(s, Some(x), need, i)[k].item in {None, Some(x)}
    decreases |s| - i
  {
    if i < |s| {
      if s[i].item == Some(x) {
        if s[i].quantity < need {
          RemoveScanEmptyItems(s[i := EmptySlot], x, need - s[i].quantity, i + 1);
        } else if s[i].quantity - need != 0 {
          RemoveScanEmptyItems(s[i := s[i].(quantity := s[i].quantity - need)], x, need, i + 1);
        }
      } else {
        RemoveScanEmptyItems(s, x, need, i + 1);
      }
    }
  }

  lemma RemoveScanOthers(s: seq<ItemSlot>, x: Item, need: int)
    requires AllOk(s) && need >= 0
    ensures forall y :: y != x ==> Total(RemoveScanAt(s, Some(x), need, 0), y) == Total(s, y)
  {
    RemoveScanShape(s, x, need, 0);
    RemoveScanEmptyItems(s, x, need, 0);
    var r := RemoveScanAt(s, Some(x), need, 0);
    forall y | y != x ensures Total(r, y) == Total(s, y) {
      forall k | 0 <= k < |s| ensures Held(r[k], y) == Held(s[k], y) {
        if s[k].item != Some(x) {
          assert r[k] == s[k];
        } else {
          assert r[k].item == None || r[k].item == Some(x);
        }
      }
      TotalPointwise(r, s, y);
    }
  }

  // ---------------------------------------------------------------------------
  // OnItemsUpdated during a removal
  // ---------------------------------------------------------------------------

  /** Whether `RemoveItem` as written raises `OnItemsUpdated`: only when its
      scan stops, at a stack of the item that holds exactly what is still
      requested. Emptying smaller stacks and decrementing larger ones raise
      nothing. */
  predicate RemoveScanNotifies(s: seq<ItemSlot>, x: Option<Item>, need: int, i: nat)
    requires i <= |s|
    decreases |s| - i
  {
    if i == |s| then false
    else if s[i].item.Some? && s[i].item == x then
      if s[i].quantity < need then RemoveScanNotifies(s[i := EmptySlot], x, need - s[i].quantity, i + 1)
      else
        var left := s[i].quantity - need;
        left == 0 || RemoveScanNotifies(s[i := s[i].(quantity := left)], x, need, i + 1)
    else RemoveScanNotifies(s, x, need, i + 1)
  }

  /** The same for the corrected loop, which keeps the event where it is: it
      is raised when the scan stops at a stack that the request empties. */
  predicate RemoveUpToNotifies(s: seq<ItemSlot>, x: Option<Item>, need: int, i: nat)
    requires i <= |s|
    decreases |s| - i
  {
    if i == |s| then false
    else if s[i].item.Some? && s[i].item == x then
      if s[i].quantity < need then RemoveUpToNotifies(s[i := EmptySlot], x, need - s[i].quantity, i + 1)
      else s[i].quantity == need
    else RemoveUpToNotifies(s, x, need, i + 1)
  }

  /** A request for more than the container holds empties every stack of the
      item and raises no event, with either loop: the slots change but
      nothing is told. */
  lemma {:induction false} ShortRemovalIsSilent(s: seq<ItemSlot>, x: Item, need: int, i: nat)
    requires AllOk(s) && i <= |s| && Total(s[i..], x) < need
    ensures !RemoveScanNotifies(s, Some(x), need, i) && !RemoveUpToNotifies(s, Some(x), need, i)
    ensures RemoveScanAt(s, Some(x), need, i) == RemoveUpToAt(s, Some(x), need, i)
    decreases |s| - i
  {
    if i < |s| {
      TotalSplit(s, i, x);
      assert AllOk(s[i + 1..]);
      TotalNonNegative(s[i + 1..], x);
      if s[i].item == Some(x) {
        var s' := s[i := EmptySlot];
        assert s'[i + 1..] == s[i + 1..];
        ShortRemovalIsSilent(s', x, need - s[i].quantity, i + 1);
      } else {
        ShortRemovalIsSilent(s, x, need, i + 1);
      }
    }
  }

  /** Two stacks of 5: a request for 3 over-removes and raises nothing (the
      corrected loop raises nothing either, the first stack keeping 2); a
      request for 5 empties the first stack and raises the event with
      either loop. */
  lemma RemoveNotifyExamples()
    ensures var wood := Item(1, "Wood", "Wood", 10);
      var s := [ItemSlot(Some(wood), 5), ItemSlot(Some(wood), 5)];
      && !RemoveScanNotifies(s, Some(wood), 3, 0) && !RemoveUpToNotifies(s, Some(wood), 3, 0)
      && RemoveScanNotifies(s, Some(wood), 5, 0) && RemoveUpToNotifies(s, Some(wood), 5, 0)
  {
    var wood := Item(1, "Wood", "Wood", 10);
    var s := [ItemSlot(Some(wood), 5), ItemSlot(Some(wood), 5)];
    var s1 := s[0 := ItemSlot(Some(wood), 2)];
    assert !RemoveScanNotifies(s1, Some(wood), 3, 1) by {
      var s2 := s1[1 := ItemSlot(Some(wood), 2)];
      assert !RemoveScanNotifies(s2, Some(wood), 3, 2);
    }
  }

  // ---------------------------------------------------------------------------
  // RemoveAt and Swap
  // ---------------------------------------------------------------------------

  /** `RemoveAt(slotIndex)`: an index outside the array is ignored, any other
      slot is emptied. */
  function RemoveAtSpec(s: seq<ItemSlot>, slotIndex: int): seq<ItemSlot> {
    if slotIndex < 0 || slotIndex > |s| - 1 then s else s[slotIndex := EmptySlot]
  }

  lemma RemoveAtFacts(s: seq<ItemSlot>, slotIndex: int, x: Item)
    requires AllOk(s)
    ensures var r := RemoveAtSpec(s, slotIndex);
      && |r| == |s|
      && AllOk(r)
      && (slotIndex < 0 || slotIndex >= |s| ==> r == s)
      && (0 <= slotIndex < |s| ==> r[slotIndex] == EmptySlot && Total(r, x) == Total(s, x) - Held(s[slotIndex], x))
      && (forall k :: 0 <= k < |s| && k != slotIndex ==> r[k] == s[k])
  {
    if 0 <= slotIndex < |s| {
      TotalUpdate(s, slotIndex, EmptySlot, x);
    }
  }

  /** The dragged stack fits onto the target stack of the same item. */
  predicate Merges(first: ItemSlot, second: ItemSlot) {
    second.item.Some? && first.item == second.item
    && first.quantity <= second.item.value.maxStackSize - second.quantity
  }

  /** `Swap(fromIndex, toIndex)`: equal slots stay as they are; a stack that
      fits onto a stack of the same item is merged into `toIndex`, emptying
      `fromIndex`; otherwise the two slots trade places. */
  function SwapSpec(s: seq<ItemSlot>, fromIndex: nat, toIndex: nat): seq<ItemSlot>
    requires fromIndex < |s| && toIndex < |s|
  {
    var first := s[fromIndex];
    var second := s[toIndex];
    if first == second then s
    else if Merges(first, second)
    then s[toIndex := second.(quantity := second.quantity + first.quantity)][fromIndex := EmptySlot]
    else s[fromIndex := second][toIndex := first]
  }

  /** `Swap` never changes how much of any item the container holds, keeps the
      slots well formed and touches no slot but the two it is given. */
  lemma SwapFacts(s: seq<ItemSlot>, fromIndex: nat, toIndex: nat, x: Item)
    requires fromIndex < |s| && toIndex < |s|
    ensures var r := SwapSpec(s, fromIndex, toIndex);
      && |r| == |s|
      && Total(r, x) == Total(s, x)
      && (AllOk(s) ==> AllOk(r))
      && (forall k :: 0 <= k < |s| && k != fromIndex && k != toIndex ==> r[k] == s[k])
  {
    var first := s[fromIndex];
    var second := s[toIndex];
    if first != second {
      if Merges(first, second) {
        var t := s[toIndex := second.(quantity := second.quantity + first.quantity)];
        TotalUpdate(s, toIndex, t[toIndex], x);
        TotalUpdate(t, fromIndex, EmptySlot, x);
      } else {
        var t := s[fromIndex := second];
        TotalUpdate(s, fromIndex, second, x);
        TotalUpdate(t, toIndex, first, x);
      }
    }
  }

  /** Two slots that were exchanged rather than merged are exchanged back by
      repeating the same drag, or by dragging the other way: merging does
      not depend on which of two stacks is dragged. */
  lemma SwapBack(s: seq<ItemSlot>, fromIndex: nat, toIndex: nat)
    requires fromIndex < |s| && toIndex < |s|
    requires !Merges(s[fromIndex], s[toIndex])
    ensures SwapSpec(SwapSpec(s, fromIndex, toIndex), fromIndex, toIndex) == s
    ensures SwapSpec(SwapSpec(s, fromIndex, toIndex), toIndex, fromIndex) == s
  {
    var first := s[fromIndex];
    var second := s[toIndex];
    if first != second {
      var r := SwapSpec(s, fromIndex, toIndex);
      assert r[fromIndex] == second && r[toIndex] == first;
      assert !Merges(second, first);
    }
  }
}
