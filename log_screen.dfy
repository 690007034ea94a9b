/** The on-screen log console: every message the engine logs is coloured
    by its kind, stamped with the time, split into lines, and the non-empty
    lines are queued, the oldest being dropped once more than
    `maxStoredLogs` are held; the text shown is the queue joined by
    newlines. */
module LogScreens {
  import opened Common

  /** The engine's kinds of log message. */
  datatype LogType = Error | Assert | Warning | Log | Exception

  /** The colour tag of a message kind: errors and exceptions red,
      warnings yellow, everything else white. */
  function Color(kind: LogType): string
  {
    match kind
    case Error => "red"
    case Exception => "red"
    case Warning => "yellow"
    case _ => "white"
  }

  /** The message text: errors and exceptions carry their stack trace on
      the lines after it. */
  function Message(logString: string, stackTrace: string, kind: LogType): string
  {
    if kind == Error || kind == Exception then logString + "\n" + stackTrace else logString
  }

  /** The tag that ends the colour. */
  const CloseTag: string := "</color>"

  /** The opening of a formatted entry, up to the message text. */
  function Header(timeStamp: string, kind: LogType): string
  {
    "[" + timeStamp + "] <color=" + Color(kind) + ">"
  }

  /** One formatted entry before it is split into lines. */
  function Formatted(timeStamp: string, logString: string, stackTrace: string, kind: LogType): string
  {
    Header(timeStamp, kind) + Message(logString, stackTrace, kind) + CloseTag
  }

  /** The pieces that are not empty, in order. */
  function NonEmpty(pieces: seq<string>): seq<string>
  {
    if |pieces| == 0 then []
    else if pieces[0] == [] then NonEmpty(pieces[1..])
    else [pieces[0]] + NonEmpty(pieces[1..])
  }

  /** The lines an entry adds to the queue. */
  function EntryLines(timeStamp: string, logString: string, stackTrace: string, kind: LogType): seq<string>
  {
    NonEmpty(Split(Formatted(timeStamp, logString, stackTrace, kind), '\n'))
  }

  // ---------------------------------------------------------------------
  // The bounded queue

  /** How many lines the queue can hold: a negative maximum holds none. */
  function Capacity(maxStoredLogs: int): nat
  {
    if maxStoredLogs < 0 then 0 else maxStoredLogs
  }

  /** The last `n` elements of `s` (all of it when it is shorter). */
  function Last(s: seq<string>, n: nat): (r: seq<string>)
    ensures |r| == if |s| <= n then |s| else n
    ensures r == s[|s| - |r|..]
  {
    if |s| <= n then s else s[|s| - n..]
  }

  /** `Enqueue` followed by one `Dequeue` when the count exceeds the maximum. */
  function Enqueue(q: seq<string>, line: string, maxStoredLogs: int): seq<string>
  {
    if |q| + 1 > maxStoredLogs then (q + [line])[1..] else q + [line]
  }

  /** The queue after enqueueing `lines` in order. */
  function EnqueueAll(q: seq<string>, lines: seq<string>, maxStoredLogs: int): seq<string>
    decreases |lines|
  {
    if |lines| == 0 then q
    else Enqueue(EnqueueAll(q, lines[..|lines| - 1], maxStoredLogs), lines[|lines| - 1], maxStoredLogs)
  }

  /** Lines fit for the display: non-empty and without a newline. */
  predicate DisplayLines(q: seq<string>)
  {
    forall k :: 0 <= k < |q| ==> q[k] != [] && '\n' !in q[k]
  }

  /** One enqueue keeps the queue within its capacity and its lines fit. */
  lemma EnqueueKeepsDisplayLines(q: seq<string>, line: string, maxStoredLogs: int)
    requires |q| <= Capacity(maxStoredLogs) && DisplayLines(q)
    requires line != [] && '\n' !in line
    ensures |Enqueue(q, line, maxStoredLogs)| <= Capacity(maxStoredLogs)
    ensures DisplayLines(Enqueue(q, line, maxStoredLogs))
  {
    var r := Enqueue(q, line, maxStoredLogs);
    forall k | 0 <= k < |r|
      ensures r[k] != [] && '\n' !in r[k]
    {
      if |q| + 1 > maxStoredLogs {
        assert r[k] == (q + [line])[k + 1];
      } else {
        assert r[k] == (q + [line])[k];
      }
    }
  }

  lemma EnqueueAllAppend(q: seq<string>, lines: seq<string>, line: string, maxStoredLogs: int)
    ensures EnqueueAll(q, lines + [line], maxStoredLogs) == Enqueue(EnqueueAll(q, lines, maxStoredLogs), line, maxStoredLogs)
  {
    assert (lines + [line])[..|lines|] == lines;
  }

  lemma NonEmptyAppend(pieces: seq<string>, piece: string)
    ensures NonEmpty(pieces + [piece]) == NonEmpty(pieces) + (if piece == [] then [] else [piece])
  {
    if |pieces| > 0 {
      assert (pieces + [piece])[1..] == pieces[1..] + [piece];
    }
  }

  /** Keeping the last `n` and then adding a line and keeping the last `n`
      is the same as adding it first. */
  lemma LastAppend(s: seq<string>, line: string, n: nat)
    ensures Last(Last(s, n) + [line], n) == Last(s + [line], n)
  {
  }

  /** Enqueueing into a queue within its capacity keeps exactly the newest
      lines: the last `Capacity(maxStoredLogs)` of the old queue followed by
      the new lines. */
  lemma {:induction false} EnqueueAllKeepsNewest(q: seq<string>, lines: seq<string>, maxStoredLogs: int)
    requires |q| <= Capacity(maxStoredLogs)
    ensures EnqueueAll(q, lines, maxStoredLogs) == Last(q + lines, Capacity(maxStoredLogs))
    ensures |EnqueueAll(q, lines, maxStoredLogs)| == if |q| + |lines| <= Capacity(maxStoredLogs) then |q| + |lines| else Capacity(maxStoredLogs)
    decreases |lines|
  {
    var c := Capacity(maxStoredLogs);
    if |lines| == 0 {
      assert q + lines == q;
    } else {
      var init := lines[..|lines| - 1];
      var line := lines[|lines| - 1];
      EnqueueAllKeepsNewest(q, init, maxStoredLogs);
      var before := EnqueueAll(q, init, maxStoredLogs);
      EnqueueIsLast(before, line, maxStoredLogs);
      LastAppend(q + init, line, c);
      assert q + init + [line] == q + lines;
    }
  }

  /** Within capacity, one enqueue keeps the newest lines. */
  lemma EnqueueIsLast(q: seq<string>, line: string, maxStoredLogs: int)
    requires |q| <= Capacity(maxStoredLogs)
    ensures Enqueue(q, line, maxStoredLogs) == Last(q + [line], Capacity(maxStoredLogs))
  {
  }

  // ---------------------------------------------------------------------
  // What one entry adds

  /** The lines of an entry (with a newline-free time stamp): the first
      starts with the time stamp and colour tag, the last ends with the
      closing colour tag, and an error or exception, whose stack trace
      starts a new line, always takes at least two lines. */
  lemma EntryLinesShape(timeStamp: string, logString: string, stackTrace: string, kind: LogType)
    requires '\n' !in timeStamp
    ensures var lines := EntryLines(timeStamp, logString, stackTrace, kind);
      |lines| >= 1 && Header(timeStamp, kind) <= lines[0] && EndsWith(lines[|lines| - 1], CloseTag)
      && (kind == Error || kind == Exception ==> |lines| >= 2)
  {
    var pieces := Split(Formatted(timeStamp, logString, stackTrace, kind), '\n');
    FirstPieceHasHeader(timeStamp, logString, stackTrace, kind);
    LastPieceClosesColor(timeStamp, logString, stackTrace, kind);
    if kind == Error || kind == Exception {
      ErrorSpansTwoPieces(timeStamp, logString, stackTrace, kind);
    }
    NonEmptyShape(pieces, Header(timeStamp, kind), CloseTag);
    assert EntryLines(timeStamp, logString, stackTrace, kind) == NonEmpty(pieces);
  }

  /** The filter keeps a first piece that opens with `header` and a last
      piece that closes with `footer`. */
  lemma NonEmptyShape(pieces: seq<string>, header: string, footer: string)
    requires |pieces| >= 1 && pieces[0] != [] && pieces[|pieces| - 1] != []
    requires header <= pieces[0] && EndsWith(pieces[|pieces| - 1], footer)
    ensures var r := NonEmpty(pieces);
      |r| >= 1 && header <= r[0] && EndsWith(r[|r| - 1], footer) && (|pieces| >= 2 ==> |r| >= 2)
  {
    NonEmptyKeepsEnds(pieces);
  }

  lemma FirstPieceHasHeader(timeStamp: string, logString: string, stackTrace: string, kind: LogType)
    requires '\n' !in timeStamp
    ensures var pieces := Split(Formatted(timeStamp, logString, stackTrace, kind), '\n');
      Header(timeStamp, kind) <= pieces[0] && pieces[0] != []
  {
    var header := Header(timeStamp, kind);
    var rest := Message(logString, stackTrace, kind) + CloseTag;
    HeaderHasNoNewline(timeStamp, kind);
    assert Formatted(timeStamp, logString, stackTrace, kind) == header + rest;
    SplitKeepsPrefix(header, rest, '\n');
  }

  lemma LastPieceClosesColor(timeStamp: string, logString: string, stackTrace: string, kind: LogType)
    ensures var pieces := Split(Formatted(timeStamp, logString, stackTrace, kind), '\n');
      EndsWith(pieces[|pieces| - 1], CloseTag) && pieces[|pieces| - 1] != []
  {
    var front := Header(timeStamp, kind) + Message(logString, stackTrace, kind);
    assert Formatted(timeStamp, logString, stackTrace, kind) == front + CloseTag;
    SplitKeepsSuffix(front, CloseTag, '\n');
  }

  lemma ErrorSpansTwoPieces(timeStamp: string, logString: string, stackTrace: string, kind: LogType)
    requires kind == Error || kind == Exception
    ensures |Split(Formatted(timeStamp, logString, stackTrace, kind), '\n')| >= 2
  {
    var text := Formatted(timeStamp, logString, stackTrace, kind);
    var front := Header(timeStamp, kind) + logString;
    assert text == front + "\n" + (stackTrace + CloseTag);
    NewlineIn(front, stackTrace + CloseTag);
    SplitAtLeastTwo(text, '\n');
  }

  lemma HeaderHasNoNewline(timeStamp: string, kind: LogType)
    requires '\n' !in timeStamp
    ensures '\n' !in Header(timeStamp, kind) && |Header(timeStamp, kind)| > 0
  {
    assert '\n' !in Color(kind);
  }

  lemma NewlineIn(a: string, b: string)
    ensures '\n' in a + "\n" + b
  {
    assert (a + "\n" + b)[|a|] == '\n';
  }

  /** Non-empty first and last pieces survive the filter, at its ends. */
  lemma {:induction false} NonEmptyKeepsEnds(pieces: seq<string>)
    requires |pieces| >= 1 && pieces[0] != [] && pieces[|pieces| - 1] != []
    ensures var r := NonEmpty(pieces);
      |r| >= 1 && r[0] == pieces[0] && r[|r| - 1] == pieces[|pieces| - 1]
      && (|pieces| >= 2 ==> |r| >= 2)
  {
    if |pieces| >= 2 {
      NonEmptyKeepsLast(pieces[1..]);
    }
  }

  lemma {:induction false} NonEmptyKeepsLast(pieces: seq<string>)
    requires |pieces| >= 1 && pieces[|pieces| - 1] != []
    ensures var r := NonEmpty(pieces); |r| >= 1 && r[|r| - 1] == pieces[|pieces| - 1]
    decreases |pieces|
  {
    if |pieces| >= 2 {
      NonEmptyKeepsLast(pieces[1..]);
    }
  }

  // ---------------------------------------------------------------------
  // The component

  class LogScreen {
    /** `maxStoredLogs` (1000 by default). */
    const maxStoredLogs: int
    /** Whether the `logText` field is assigned. */
    const hasLogText: bool
    /** `logLines`, front first. */
    var logLines: seq<string>
    /** Whether `HandleLog` is subscribed to the engine's log messages. */
    var isInitialized: bool
    /** `logText.text`. */
    var displayedText: string

    /** Every queued line is a non-empty line, and the queue is within its
        capacity. */
    predicate Valid()
      reads this
    {
      |logLines| <= Capacity(maxStoredLogs) && DisplayLines(logLines)
    }

    constructor (maxStoredLogs: int, hasLogText: bool)
      ensures this.maxStoredLogs == maxStoredLogs && this.hasLogText == hasLogText
      ensures logLines == [] && !isInitialized && displayedText == ""
      ensures Valid()
    {
      this.maxStoredLogs := maxStoredLogs;
      this.hasLogText := hasLogText;
      logLines := [];
      isInitialized := false;
      displayedText := "";
    }

    /** `OnEnable`: subscribes once. */
    method OnEnable()
      modifies this
      ensures isInitialized
      ensures logLines == old(logLines) && displayedText == old(displayedText)
    {
      if !isInitialized {
        isInitialized := true;
      }
    }

    /** `OnDisable`: unsubscribes once. */
    method OnDisable()
      modifies this
      ensures !isInitialized
      ensures logLines == old(logLines) && displayedText == old(displayedText)
    {
      if isInitialized {
        isInitialized := false;
      }
    }

    /** A log message delivered by the engine, which happens only while
        subscribed; `timeStamp` is the current time as `HH:mm:ss`. */
    method ReceiveLog(logString: string, stackTrace: string, kind: LogType, timeStamp: string)
      modifies this
      ensures !old(isInitialized) ==> unchanged(this)
      ensures old(isInitialized) ==>
        logLines == EnqueueAll(old(logLines), EntryLines(timeStamp, logString, stackTrace, kind), maxStoredLogs)
      ensures old(Valid()) ==> Valid()
    {
      if isInitialized {
        HandleLog(logString, stackTrace, kind, timeStamp);
      }
    }

    /** `HandleLog`: formats the entry, enqueues its non-empty lines and
        refreshes the display. */
    method HandleLog(logString: string, stackTrace: string, kind: LogType, timeStamp: string)
      modifies this
      ensures logLines == EnqueueAll(old(logLines), EntryLines(timeStamp, logString, stackTrace, kind), maxStoredLogs)
      ensures isInitialized == old(isInitialized)
      ensures hasLogText ==> displayedText == Join("\n", logLines)
      ensures !hasLogText ==> displayedText == old(displayedText)
      ensures old(Valid()) ==> Valid()
    {
      var formatted := Formatted(timeStamp, logString, stackTrace, kind);
      EnqueueLines(Split(formatted, '\n'));
      UpdateLogDisplay();
    }

    /** The `foreach` of `HandleLog`: enqueues the non-empty lines one at a
        time, dropping the oldest whenever the count exceeds the maximum. */
    method EnqueueLines(lines: seq<string>)
      requires forall k :: 0 <= k < |lines| ==> '\n' !in lines[k]
      modifies this
      ensures logLines == EnqueueAll(old(logLines), NonEmpty(lines), maxStoredLogs)
      ensures isInitialized == old(isInitialized) && displayedText == old(displayedText)
      ensures old(Valid()) ==> Valid()
    {
      var i := 0;
      assert lines[..0] == [];
      assert NonEmpty(lines[..0]) == [];
      while i < |lines|
        invariant 0 <= i <= |lines|
        invariant logLines == EnqueueAll(old(logLines), NonEmpty(lines[..i]), maxStoredLogs)
        invariant isInitialized == old(isInitialized) && displayedText == old(displayedText)
        invariant old(Valid()) ==> Valid()
      {
        var line := lines[i];
        ghost var done := NonEmpty(lines[..i]);
        assert lines[..i + 1] == lines[..i] + [line];
        NonEmptyAppend(lines[..i], line);
        if line != [] {
          assert NonEmpty(lines[..i + 1]) == done + [line];
          EnqueueAllAppend(old(logLines), done, line, maxStoredLogs);
          EnqueueLine(line);
        } else {
          assert NonEmpty(lines[..i + 1]) == done;
        }
        i := i + 1;
      }
      assert lines[..|lines|] == lines;
    }

    /** `logLines.Enqueue(line)`, then one `Dequeue` when the count exceeds
        the maximum. */
    method EnqueueLine(line: string)
      requires line != [] && '\n' !in line
      modifies this
      ensures logLines == Enqueue(old(logLines), line, maxStoredLogs)
      ensures isInitialized == old(isInitialized) && displayedText == old(displayedText)
      ensures old(Valid()) ==> Valid()
    {
      logLines := logLines + [line];
      if |logLines| > maxStoredLogs {
        logLines := logLines[1..];
      }
      if old(Valid()) {
        EnqueueKeepsDisplayLines(old(logLines), line, maxStoredLogs);
      }
    }

    /** `UpdateLogDisplay`: shows the queue joined by newlines when the text
        field is assigned; splitting the shown text on newlines gives the
        queue back. */
    method UpdateLogDisplay()
      modifies this
      ensures logLines == old(logLines) && isInitialized == old(isInitialized)
      ensures hasLogText ==> displayedText == Join("\n", logLines)
      ensures !hasLogText ==> displayedText == old(displayedText)
      ensures Valid() && hasLogText && |logLines| >= 1 ==> Split(displayedText, '\n') == logLines
    {
      if hasLogText {
        displayedText := Join("\n", logLines);
        if Valid() && |logLines| >= 1 {
          SplitJoin(logLines, '\n');
        }
      }
    }
  }
}
