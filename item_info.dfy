/** The description texts of the inventory item kinds: each kind overrides
    `GetInfoDisplayText` with a few `AppendLine`d lines — the item's name,
    its green use text and, for consumables and mine items, its stack
    limit. */
module ItemInfo {
  import opened Common
  import opened Items

  /** The item kinds with a description of their own. */
  datatype ItemKind = Consumable | Mine | Craftable | Crafting | Wood

  /** Consumables and mine items show their stack limit; in the other kinds
      that line is commented out. */
  predicate ShowsMaxStack(kind: ItemKind)
  {
    kind == Consumable || kind == Mine
  }

  /** The default `useText` of each kind. */
  function DefaultUseText(kind: ItemKind): string
  {
    match kind
    case Consumable => "Does something..."
    case Mine => "Mine something..."
    case Craftable => "Does something..."
    case Crafting => "Craft something..."
    case Wood => "Wood something..."
  }

  /** The label of the stack line. */
  const MaxStackLabel: string := "Max Stack: "

  /** The second line: the use text in green. */
  function UseLine(useText: string): string
  {
    "<color=green>Use: " + useText + "</color>"
  }

  /** The third line: the stack limit in decimal. */
  function StackLine(maxStackSize: int): string
  {
    MaxStackLabel + IntToString(maxStackSize)
  }

  /** The stack line reads back as the stack limit. */
  lemma StackLineParses(maxStackSize: int)
    ensures MaxStackLabel <= StackLine(maxStackSize)
    ensures ParseInt(StackLine(maxStackSize)[|MaxStackLabel|..]) == Some(maxStackSize)
  {
    assert StackLine(maxStackSize)[|MaxStackLabel|..] == IntToString(maxStackSize);
    IntToStringRoundTrip(maxStackSize);
  }

  lemma StackLineHasNoNewline(maxStackSize: int)
    ensures '\n' !in StackLine(maxStackSize)
  {
    var digits := if maxStackSize < 0 then NatToString(-maxStackSize) else NatToString(maxStackSize);
    assert '\n' !in digits;
    if maxStackSize < 0 {
      assert StackLine(maxStackSize) == MaxStackLabel + "-" + digits;
    } else {
      assert StackLine(maxStackSize) == MaxStackLabel + digits;
    }
  }

  /** The lines of a description: name, use line and, where shown, the
      stack line. */
  function InfoLines(kind: ItemKind, item: Item, useText: string): seq<string>
  {
    [item.name, UseLine(useText)] + if ShowsMaxStack(kind) then [StackLine(item.maxStackSize)] else []
  }

  /** `GetInfoDisplayText` of each kind: every line is ended by a newline,
      so the text starts with the item's name, ends with a newline and,
      when the name and use text are single lines, splits on newlines into
      exactly its lines and a final empty piece. */
  function GetInfoDisplayText(kind: ItemKind, item: Item, useText: string): (text: string)
    ensures item.name <= text && EndsWith(text, NewLine)
    ensures '\n' !in item.name && '\n' !in useText ==>
      Split(text, '\n') == InfoLines(kind, item, useText) + [""]
  {
    var lines := InfoLines(kind, item, useText);
    StackLineHasNoNewline(item.maxStackSize);
    assert '\n' !in item.name && '\n' !in useText ==> '\n' !in UseLine(useText);
    InfoShape(lines);
    Terminated(lines, '\n')
  }

  /** The newline-terminated text of `lines` starts with the first line,
      ends with a newline, and splits back into the lines when none of them
      holds a newline. */
  lemma InfoShape(lines: seq<string>)
    requires |lines| >= 1
    ensures lines[0] <= Terminated(lines, '\n') && EndsWith(Terminated(lines, '\n'), NewLine)
    ensures (forall k :: 0 <= k < |lines| ==> '\n' !in lines[k]) ==>
      Split(Terminated(lines, '\n'), '\n') == lines + [""]
  {
    assert Terminated(lines, '\n') == lines[0] + ['\n'] + Terminated(lines[1..], '\n');
    TerminatedEndsWithNewline(lines);
    if forall k :: 0 <= k < |lines| ==> '\n' !in lines[k] {
      SplitTerminatedLines(lines, '\n');
    }
  }

  lemma {:induction false} TerminatedEndsWithNewline(lines: seq<string>)
    requires |lines| >= 1
    ensures EndsWith(Terminated(lines, '\n'), NewLine)
    decreases |lines|
  {
    if |lines| >= 2 {
      TerminatedEndsWithNewline(lines[1..]);
    }
  }

  /** A consumable's or mine item's description with a single-line name
      and use text has three lines: the name, the use line, and a stack line
      whose number reads back as the item's stack limit. */
  lemma StackedInfoShowsStackLimit(kind: ItemKind, item: Item, useText: string)
    requires ShowsMaxStack(kind)
    requires '\n' !in item.name && '\n' !in useText
    ensures var lines := Split(GetInfoDisplayText(kind, item, useText), '\n');
      |lines| == 4 && lines[0] == item.name && lines[1] == UseLine(useText) && lines[3] == ""
      && MaxStackLabel <= lines[2] && ParseInt(lines[2][|MaxStackLabel|..]) == Some(item.maxStackSize)
  {
    StackLineParses(item.maxStackSize);
  }

  /** A craftable, crafting or wood item's description is exactly the name
      and the use line, each followed by a newline. */
  lemma UnstackedInfoHasTwoLines(kind: ItemKind, item: Item, useText: string)
    requires !ShowsMaxStack(kind)
    ensures GetInfoDisplayText(kind, item, useText) == item.name + "\n" + UseLine(useText) + "\n"
    ensures '\n' !in item.name && '\n' !in useText ==>
      Split(GetInfoDisplayText(kind, item, useText), '\n') == [item.name, UseLine(useText), ""]
  {
    var lines := InfoLines(kind, item, useText);
    assert lines == [item.name, UseLine(useText)];
    assert Terminated(lines[1..], '\n') == UseLine(useText) + "\n" + Terminated([], '\n');
  }

  /** With the use text each kind ships with, a description of an item with
      a single-line name has its three or four lines, the second being that
      default use text in green. */
  lemma DefaultDescription(kind: ItemKind, item: Item)
    requires '\n' !in item.name
    ensures var lines := Split(GetInfoDisplayText(kind, item, DefaultUseText(kind)), '\n');
      && |lines| == (if ShowsMaxStack(kind) then 4 else 3)
      && lines[0] == item.name && lines[1] == UseLine(DefaultUseText(kind)) && lines[|lines| - 1] == ""
  {
  }
}
