/** Values shared by every part of the model: an optional value standing for a
    C# reference that may be null, and the text helpers the game's string code
    relies on (splitting, joining, decimal rendering, substring search). */
module Common {

  /** A C# reference that may be null. */
  datatype Option<+T> = None | Some(value: T)

  /** `Environment.NewLine` as appended by `StringBuilder.AppendLine`. */
  const NewLine: string := "\n"

  // ---------------------------------------------------------------------------
  // String.Split(char) and String.Join(string, ...)
  // ---------------------------------------------------------------------------

  /** `s.Split(sep)`: the pieces between separators, empty pieces included, so
      a string with k separators yields k + 1 pieces. */
  function Split(s: string, sep: char): (pieces: seq<string>)
    ensures |pieces| >= 1
    ensures forall k :: 0 <= k < |pieces| ==> sep !in pieces[k]
    decreases |s|
  {
    if |s| == 0 then [""]
    else
      var rest := Split(s[1..], sep);
      if s[0] == sep then [""] + rest
      else [[s[0]] + rest[0]] + rest[1..]
  }

  /** `string.Join(sep, pieces)`. */
  function Join(sep: string, pieces: seq<string>): string
    decreases |pieces|
  {
    if |pieces| == 0 then ""
    else if |pieces| == 1 then pieces[0]
    else pieces[0] + sep + Join(sep, pieces[1..])
  }

  /** Joining the pieces of a split with the separator gives back the text. */
  lemma {:induction false} JoinSplit(s: string, sep: char)
    ensures Join([sep], Split(s, sep)) == s
    decreases |s|
  {
    if |s| > 0 {
      var rest := Split(s[1..], sep);
      JoinSplit(s[1..], sep);
      if s[0] == sep {
        assert Split(s, sep) == [""] + rest;
        assert s == [sep] + s[1..];
      } else {
        var p := Split(s, sep);
        assert p == [[s[0]] + rest[0]] + rest[1..];
        if |rest| == 1 {
          assert Join([sep], rest) == rest[0];
          assert s == [s[0]] + s[1..];
        } else {
          assert Join([sep], rest) == rest[0] + [sep] + Join([sep], rest[1..]);
          assert p[1..] == rest[1..];
          assert s == [s[0]] + s[1..];
        }
      }
    }
  }

  /** Text without the separator splits into itself alone. */
  lemma {:induction false} SplitNoSeparator(s: string, sep: char)
    requires sep !in s
    ensures Split(s, sep) == [s]
    decreases |s|
  {
    if |s| > 0 {
      SplitNoSeparator(s[1..], sep);
      assert [s[0]] + s[1..] == s;
    }
  }

  /** Splitting the separator-free pieces joined by the separator gives back
      the pieces, as long as there is at least one. */
  lemma {:induction false} SplitJoin(pieces: seq<string>, sep: char)
    requires |pieces| >= 1
    requires forall k :: 0 <= k < |pieces| ==> sep !in pieces[k]
    ensures Split(Join([sep], pieces), sep) == pieces
    decreases |pieces|
  {
    if |pieces| == 1 {
      SplitNoSeparator(pieces[0], sep);
    } else {
      SplitJoin(pieces[1..], sep);
      assert Join([sep], pieces) == pieces[0] + [sep] + Join([sep], pieces[1..]);
      SplitCons(pieces[0], sep, Join([sep], pieces[1..]));
      assert pieces == [pieces[0]] + pieces[1..];
    }
  }

  /** A separator-free prefix stays at the start of the first piece. */
  lemma {:induction false} SplitKeepsPrefix(p: string, rest: string, sep: char)
    requires sep !in p
    ensures p <= Split(p + rest, sep)[0]
    decreases |p|
  {
    if |p| > 0 {
      SplitKeepsPrefix(p[1..], rest, sep);
      assert (p + rest)[1..] == p[1..] + rest;
      assert p == [p[0]] + p[1..];
    }
  }

  /** `s.EndsWith(p)`. */
  predicate EndsWith(s: string, p: string)
  {
    |p| <= |s| && s[|s| - |p|..] == p
  }

  /** A separator-free suffix stays at the end of the last piece. */
  lemma {:induction false} SplitKeepsSuffix(rest: string, p: string, sep: char)
    requires sep !in p
    ensures var pieces := Split(rest + p, sep); EndsWith(pieces[|pieces| - 1], p)
    decreases |rest|
  {
    if |rest| == 0 {
      assert rest + p == p;
      SplitNoSeparator(p, sep);
    } else {
      var s := rest + p;
      assert s[1..] == rest[1..] + p;
      SplitKeepsSuffix(rest[1..], p, sep);
      var tail := Split(s[1..], sep);
      var pieces := Split(s, sep);
      if s[0] == sep {
        assert pieces == [""] + tail;
        assert pieces[|pieces| - 1] == tail[|tail| - 1];
      } else if |tail| == 1 {
        assert pieces == [[s[0]] + tail[0]];
        EndsWithCons(s[0], tail[0], p);
      } else {
        assert pieces == [[s[0]] + tail[0]] + tail[1..];
        assert pieces[|pieces| - 1] == tail[|tail| - 1];
      }
    }
  }

  lemma EndsWithCons(c: char, s: string, p: string)
    requires EndsWith(s, p)
    ensures EndsWith([c] + s, p)
  {
    var t := [c] + s;
    assert t[|t| - |p|..] == s[|s| - |p|..];
  }

  /** Text holding the separator splits into at least two pieces. */
  lemma {:induction false} SplitAtLeastTwo(s: string, sep: char)
    requires sep in s
    ensures |Split(s, sep)| >= 2
    decreases |s|
  {
    if s[0] != sep {
      assert sep in s[1..];
      SplitAtLeastTwo(s[1..], sep);
    }
  }

  /** Splitting a line-free head followed by a separator peels off the head. */
  lemma {:induction false} SplitCons(a: string, sep: char, b: string)
    requires sep !in a
    ensures Split(a + [sep] + b, sep) == [a] + Split(b, sep)
    decreases |a|
  {
    if |a| == 0 {
      assert a + [sep] + b == [sep] + b;
      assert ([sep] + b)[1..] == b;
    } else {
      var s := a + [sep] + b;
      assert s[0] == a[0];
      assert s[1..] == a[1..] + [sep] + b;
      SplitCons(a[1..], sep, b);
      assert [a[0]] + a[1..] == a;
    }
  }

  /** Text that ends in the separator and has no other separators but those
      between the given lines splits into exactly those lines and a final empty
      piece. */
  lemma SplitTerminatedLines(lines: seq<string>, sep: char)
    requires forall k :: 0 <= k < |lines| ==> sep !in lines[k]
    ensures Split(Terminated(lines, sep), sep) == lines + [""]
    decreases |lines|
  {
    if |lines| > 0 {
      SplitTerminatedLines(lines[1..], sep);
      SplitCons(lines[0], sep, Terminated(lines[1..], sep));
      assert Terminated(lines, sep) == lines[0] + [sep] + Terminated(lines[1..], sep);
      assert lines == [lines[0]] + lines[1..];
    }
  }

  /** Each line followed by the separator, as successive `AppendLine` calls
      produce. */
  function Terminated(lines: seq<string>, sep: char): string
    decreases |lines|
  {
    if |lines| == 0 then "" else lines[0] + [sep] + Terminated(lines[1..], sep)
  }

  // ---------------------------------------------------------------------------
  // int.ToString() and a parser for it
  // ---------------------------------------------------------------------------

  function DigitChar(d: nat): (c: char)
    requires d < 10
    ensures '0' <= c <= '9'
  {
    "0123456789"[d]
  }

  function DigitValue(c: char): nat
    requires '0' <= c <= '9'
  {
    (c as int - '0' as int) as nat
  }

  /** Decimal digits of a natural number, most significant first, no leading
      zero ("0" for zero). */
  function NatToString(n: nat): (s: string)
    ensures |s| >= 1
    ensures forall k :: 0 <= k < |s| ==> '0' <= s[k] <= '9'
    ensures |s| > 1 ==> s[0] != '0'
    decreases n
  {
    if n < 10 then [DigitChar(n)] else NatToString(n / 10) + [DigitChar(n % 10)]
  }

  /** `int.ToString()` in the invariant culture: a minus sign for negatives. */
  function IntToString(n: int): (s: string)
    ensures |s| >= 1
  {
    if n < 0 then "-" + NatToString(-n) else NatToString(n)
  }

  /** Every character is a decimal digit. */
  predicate AllDigits(s: string)
  {
    forall k :: 0 <= k < |s| ==> '0' <= s[k] <= '9'
  }

  /** Value of a run of decimal digits. */
  function DigitsValue(s: string): nat
    requires AllDigits(s)
    decreases |s|
  {
    if |s| == 0 then 0 else DigitsValue(s[..|s| - 1]) * 10 + DigitValue(s[|s| - 1])
  }

  /** `int.Parse` for what `IntToString` produces. */
  function ParseInt(s: string): Option<int> {
    if |s| > 0 && s[0] == '-' then
      if |s| > 1 && AllDigits(s[1..]) then Some(-(DigitsValue(s[1..]) as int)) else None
    else if |s| > 0 && AllDigits(s) then Some(DigitsValue(s))
    else None
  }

  lemma DigitCharValue(d: nat)
    requires d < 10
    ensures DigitValue(DigitChar(d)) == d
  {
    assert "0123456789"[d] as int == '0' as int + d;
  }

  lemma {:induction false} DigitsOfNat(n: nat)
    ensures DigitsValue(NatToString(n)) == n
    decreases n
  {
    if n < 10 {
      DigitCharValue(n);
      assert NatToString(n)[..0] == [];
    } else {
      DigitsOfNat(n / 10);
      DigitCharValue(n % 10);
      var s := NatToString(n);
      assert s == NatToString(n / 10) + [DigitChar(n % 10)];
      assert s[..|s| - 1] == NatToString(n / 10);
      assert s[|s| - 1] == DigitChar(n % 10);
      assert DigitsValue(s) == DigitsValue(s[..|s| - 1]) * 10 + DigitValue(s[|s| - 1]);
      assert (n / 10) * 10 + n % 10 == n;
    }
  }

  /** Rendering an integer in decimal and parsing it back gives the integer. */
  lemma IntToStringRoundTrip(n: int)
    ensures ParseInt(IntToString(n)) == Some(n)
  {
    if n < 0 {
      NegativeRoundTrip(n);
    } else {
      NonNegativeRoundTrip(n);
    }
  }

  lemma NegativeRoundTrip(n: int)
    requires n < 0
    ensures ParseInt(IntToString(n)) == Some(n)
  {
    var m: nat := -n;
    var d := NatToString(m);
    DigitsOfNat(m);
    ParseNegative(d, m);
    assert IntToString(n) == "-" + d;
  }

  lemma NonNegativeRoundTrip(n: nat)
    ensures ParseInt(IntToString(n)) == Some(n)
  {
    var d := NatToString(n);
    DigitsOfNat(n);
    ParseNonNegative(d);
    assert IntToString(n) == d;
  }

  lemma ParseNonNegative(d: string)
    requires |d| > 0 && AllDigits(d)
    ensures ParseInt(d) == Some(DigitsValue(d) as int)
  {
    assert d[0] != '-';
  }

  lemma ParseNegative(d: string, m: nat)
    requires |d| > 0 && AllDigits(d) && DigitsValue(d) == m
    ensures ParseInt("-" + d) == Some(-(m as int))
  {
    var s := "-" + d;
    assert s[0] == '-' && |s| > 1;
    assert s[1..] == d;
  }

  // ---------------------------------------------------------------------------
  // String.Contains(string)
  // ---------------------------------------------------------------------------

  /** `sub` occurs in `s` starting at offset `i`. */
  predicate OccursAt(s: string, sub: string, i: int) {
    0 <= i && i + |sub| <= |s| && s[i..i + |sub|] == sub
  }

  /** `s.Contains(sub)`: `sub` occurs in `s` at some offset (the empty string
      occurs everywhere). */
  predicate Contains(s: string, sub: string) {
    exists i | 0 <= i <= |s| - |sub| :: OccursAt(s, sub, i)
  }

  /** A string contains itself and each of its prefixes. */
  lemma ContainsPrefix(s: string, sub: string)
    requires sub <= s
    ensures Contains(s, sub)
  {
    assert OccursAt(s, sub, 0);
  }

  // ---------------------------------------------------------------------------
  // C# int arithmetic (unchecked, 32-bit two's complement)
  // ---------------------------------------------------------------------------

  const Int32Modulus := 0x1_0000_0000

  /** The values a C# `int` can hold. */
  predicate InInt32(x: int) {
    -0x8000_0000 <= x < 0x8000_0000
  }

  /** The `int` an unchecked C# addition or subtraction produces from the
      mathematical result `x`: `x` itself when it fits, otherwise `x` wrapped
      around by a multiple of 2^32. */
  function Wrap32(x: int): (r: int)
    ensures InInt32(r)
    ensures InInt32(x) ==> r == x
    ensures exists k: int :: x == r + k * Int32Modulus
  {
    var m := x % Int32Modulus;
    assert x == m + (x / Int32Modulus) * Int32Modulus;
    if m >= 0x8000_0000 then
      assert x == (m - Int32Modulus) + (x / Int32Modulus + 1) * Int32Modulus;
      m - Int32Modulus
    else
      m
  }

  /** Unity's `Mathf.Clamp`, whose `int` and `float` overloads are the two
      functions below: below `min` gives `min`, otherwise above `max` gives
      `max`. */
  function Clamp(value: int, min: int, max: int): (r: int)
    ensures min <= max ==> min <= r <= max
    ensures min <= value <= max ==> r == value
    ensures r == value || r == min || r == max
  {
    if value < min then min else if value > max then max else value
  }

  /** The `float` overload of `Mathf.Clamp`, on reals. */
  function ClampReal(value: real, min: real, max: real): (r: real)
    ensures min <= max ==> min <= r <= max
    ensures min <= value <= max ==> r == value
    ensures r == value || r == min || r == max
  {
    if value < min then min else if value > max then max else value
  }
}
