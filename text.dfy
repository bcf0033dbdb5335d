/** The Python `str` operations the core relies on, over `seq<char>`:
    `sub in s`, `s.find(sub)`, `s.count(sub)`, `s.replace(old, new)`,
    `s.split(c)` for a one-character separator, `sep.join(xs)`,
    `s.expandtabs()`, list slicing and the `repr` of a list. */
module Text {
  import opened Wrappers

  /** `sub` occurs in `s` starting at index `k`. */
  ghost predicate IsOccurrence(s: string, sub: string, k: int)
  {
    0 <= k && k + |sub| <= |s| && s[k..k + |sub|] == sub
  }

  lemma OccurrenceShift(s: string, sub: string, k: int)
    requires |s| > 0 && k >= 0
    ensures IsOccurrence(s, sub, k + 1) <==> IsOccurrence(s[1..], sub, k)
  {
    if 0 <= k && k + 1 + |sub| <= |s| {
      assert s[1..][k..k + |sub|] == s[k + 1..k + 1 + |sub|];
    }
  }

  /** `s.find(sub)`: the first index at which `sub` occurs, or None (Python's -1). */
  function Find(s: string, sub: string): Option<nat>
    decreases |s|
  {
    if |s| < |sub| then None
    else if s[..|sub|] == sub then Some(0)
    else
      match Find(s[1..], sub)
      case None => None
      case Some(k) => Some(k + 1)
  }

  /** `find` gives the first occurrence, and nothing only when there is none. */
  lemma {:induction false} FindIsFirstOccurrence(s: string, sub: string)
    ensures Find(s, sub).Some? ==> IsOccurrence(s, sub, Find(s, sub).value)
    ensures Find(s, sub).Some? ==> forall j :: 0 <= j < Find(s, sub).value ==> !IsOccurrence(s, sub, j)
    ensures Find(s, sub).None? ==> forall j :: !IsOccurrence(s, sub, j)
    decreases |s|
  {
    if |s| < |sub| || s[..|sub|] == sub {
    } else {
      FindIsFirstOccurrence(s[1..], sub);
      assert !IsOccurrence(s, sub, 0);
      forall j | j >= 0 ensures IsOccurrence(s, sub, j + 1) <==> IsOccurrence(s[1..], sub, j) {
        OccurrenceShift(s, sub, j);
      }
      forall j | IsOccurrence(s, sub, j) ensures j >= 1 && IsOccurrence(s[1..], sub, j - 1) {
        OccurrenceShift(s, sub, j - 1);
      }
    }
  }

  /** `sub in s`. */
  predicate Contains(s: string, sub: string)
  {
    Find(s, sub).Some?
  }

  /** `sub in s` agrees with the definition of an occurrence. */
  lemma ContainsIff(s: string, sub: string)
    ensures Contains(s, sub) <==> exists k :: IsOccurrence(s, sub, k)
  {
    FindIsFirstOccurrence(s, sub);
  }

  /** `s.startswith(prefix)`. */
  predicate IsPrefix(prefix: string, s: string)
  {
    |prefix| <= |s| && s[..|prefix|] == prefix
  }

  lemma PrefixOfConcat(prefix: string, s: string)
    ensures IsPrefix(prefix, prefix + s)
  {
    assert (prefix + s)[..|prefix|] == prefix;
  }

  /** What occurs in a string still occurs once something is put before it. */
  lemma ContainsAfterPrefix(head: string, s: string, sub: string)
    requires Contains(s, sub)
    ensures Contains(head + s, sub)
  {
    FindIsFirstOccurrence(s, sub);
    FindIsFirstOccurrence(head + s, sub);
    var k := Find(s, sub).value;
    assert (head + s)[|head| + k..|head| + k + |sub|] == s[k..k + |sub|];
    assert IsOccurrence(head + s, sub, |head| + k);
  }

  /** `s.count(sub)`: non-overlapping occurrences scanned left to right;
      the empty string is counted `|s| + 1` times. */
  function Count(s: string, sub: string): (n: nat)
    decreases |s|
  {
    if sub == [] then |s| + 1
    else if |s| < |sub| then 0
    else if s[..|sub|] == sub then 1 + Count(s[|sub|..], sub)
    else Count(s[1..], sub)
  }

  /** Occurrences of a single character add up over a concatenation. */
  lemma {:induction false} CountCharConcat(a: string, b: string, c: char)
    ensures Count(a + b, [c]) == Count(a, [c]) + Count(b, [c])
    decreases |a|
  {
    if a == [] {
      assert a + b == b;
    } else {
      assert (a + b)[..1] == a[..1];
      assert (a + b)[1..] == a[1..] + b;
      CountCharConcat(a[1..], b, c);
    }
  }

  /** `s.replace(sub, repl)`: every non-overlapping occurrence, left to right;
      an empty `sub` inserts `repl` around every character. */
  function ReplaceAll(s: string, sub: string, repl: string): string
    decreases |s|
  {
    if sub == [] then Interleave(s, repl)
    else if |s| < |sub| then s
    else if s[..|sub|] == sub then repl + ReplaceAll(s[|sub|..], sub, repl)
    else [s[0]] + ReplaceAll(s[1..], sub, repl)
  }

  function Interleave(s: string, repl: string): string
    decreases |s|
  {
    if s == [] then repl else repl + [s[0]] + Interleave(s[1..], repl)
  }

  /** No occurrence is counted exactly when `sub` does not occur at all. */
  lemma {:induction false} CountZeroIffAbsent(s: string, sub: string)
    ensures Count(s, sub) == 0 <==> !Contains(s, sub)
    decreases |s|
  {
    if sub == [] || |s| < |sub| || s[..|sub|] == sub {
    } else {
      CountZeroIffAbsent(s[1..], sub);
    }
  }

  /** Replacing a string that does not occur changes nothing. */
  lemma {:induction false} ReplaceAbsent(s: string, sub: string, repl: string)
    requires Count(s, sub) == 0
    ensures ReplaceAll(s, sub, repl) == s
    decreases |s|
  {
    if |s| >= |sub| {
      ReplaceAbsent(s[1..], sub, repl);
      assert [s[0]] + s[1..] == s;
    }
  }

  /** The occurrence is at the very start: the rest is left as it is. */
  lemma ReplaceAtStart(s: string, sub: string, repl: string)
    requires sub != [] && |sub| <= |s| && s[..|sub|] == sub
    requires Count(s[|sub|..], sub) == 0
    ensures Find(s, sub) == Some(0)
    ensures ReplaceAll(s, sub, repl) == s[..0] + repl + s[|sub|..]
  {
    ReplaceAbsent(s[|sub|..], sub, repl);
    assert s[..0] == [];
  }

  /** The occurrence comes later: the first character is kept in front. */
  lemma ReplaceAfterFirst(s: string, sub: string, repl: string, k: nat)
    requires sub != [] && |sub| <= |s| && s[..|sub|] != sub
    requires Find(s[1..], sub) == Some(k) && k + |sub| <= |s| - 1
    requires ReplaceAll(s[1..], sub, repl) == s[1..][..k] + repl + s[1..][k + |sub|..]
    ensures Find(s, sub) == Some(k + 1)
    ensures ReplaceAll(s, sub, repl) == s[..k + 1] + repl + s[k + 1 + |sub|..]
  {
    var t := s[1..];
    var head, mid, tail := [s[0]], t[..k], t[k + |sub|..];
    assert ReplaceAll(s, sub, repl) == head + ReplaceAll(t, sub, repl);
    assert head + mid == s[..k + 1];
    assert tail == s[k + 1 + |sub|..];
    calc {
      head + (mid + repl + tail);
      { SeqAssoc(head, mid + repl, tail); SeqAssoc(head, mid, repl); }
      head + mid + repl + tail;
    }
  }

  lemma SeqAssoc<T>(a: seq<T>, b: seq<T>, c: seq<T>)
    ensures a + (b + c) == a + b + c
  {
  }

  /** With exactly one counted occurrence, `replace` substitutes the first
      occurrence and keeps everything around it. */
  lemma {:induction false} ReplaceSingle(s: string, sub: string, repl: string)
    requires Count(s, sub) == 1
    ensures Find(s, sub).Some? && Find(s, sub).value + |sub| <= |s|
    ensures var k := Find(s, sub).value;
      ReplaceAll(s, sub, repl) == s[..k] + repl + s[k + |sub|..]
    decreases |s|
  {
    FindIsFirstOccurrence(s, sub);
    if sub == [] {
      assert s == [];
    } else if s[..|sub|] == sub {
      ReplaceAtStart(s, sub, repl);
    } else {
      ReplaceSingle(s[1..], sub, repl);
      ReplaceAfterFirst(s, sub, repl, Find(s[1..], sub).value);
    }
  }

  /** `s.split(sep)` for a one-character separator: never empty, and no
      piece holds the separator. */
  function SplitOn(s: string, sep: char): (pieces: seq<string>)
    ensures |pieces| == Count(s, [sep]) + 1
    ensures forall i :: 0 <= i < |pieces| ==> sep !in pieces[i]
    decreases |s|
  {
    if s == [] then [[]]
    else
      var rest := SplitOn(s[1..], sep);
      assert s[..1] == [s[0]];
      if s[0] == sep then [[]] + rest
      else [[s[0]] + rest[0]] + rest[1..]
  }

  /** `sep.join(xs)`. */
  function Join(xs: seq<string>, sep: string): string
    decreases |xs|
  {
    if xs == [] then []
    else if |xs| == 1 then xs[0]
    else xs[0] + sep + Join(xs[1..], sep)
  }

  /** Joining the pieces of a split gives the string back. */
  lemma {:induction false} JoinSplit(s: string, sep: char)
    ensures Join(SplitOn(s, sep), [sep]) == s
    decreases |s|
  {
    if s != [] {
      var rest := SplitOn(s[1..], sep);
      var pieces := SplitOn(s, sep);
      JoinSplit(s[1..], sep);
      assert Join(rest, [sep]) == s[1..];
      assert s == [s[0]] + s[1..];
      if s[0] == sep {
        assert pieces == [[]] + rest;
        assert pieces[1..] == rest;
        assert Join(pieces, [sep]) == [] + [sep] + Join(rest, [sep]);
      } else {
        assert pieces == [[s[0]] + rest[0]] + rest[1..];
        if |rest| == 1 {
          assert Join(rest, [sep]) == rest[0];
          assert Join(pieces, [sep]) == [s[0]] + rest[0];
        } else {
          assert pieces[1..] == rest[1..];
          assert Join(rest, [sep]) == rest[0] + [sep] + Join(rest[1..], [sep]);
          assert Join(pieces, [sep]) == ([s[0]] + rest[0]) + [sep] + Join(rest[1..], [sep]);
        }
      }
    }
  }

  lemma SplitPrefixChar(c: char, rest: string, sep: char)
    requires c != sep
    ensures SplitOn([c] + rest, sep) == [[c] + SplitOn(rest, sep)[0]] + SplitOn(rest, sep)[1..]
  {
    assert ([c] + rest)[1..] == rest;
  }

  /** Splitting a joined list of separator-free lines gives the lines back. */
  lemma {:induction false} SplitJoinLine(line: string, tail: string, sep: char)
    requires sep !in line
    ensures SplitOn(line + tail, sep) == [line + SplitOn(tail, sep)[0]] + SplitOn(tail, sep)[1..]
    decreases |line|
  {
    if line == [] {
      var t := SplitOn(tail, sep);
      assert line + tail == tail;
      assert line + t[0] == t[0];
      assert t == [t[0]] + t[1..];
    } else {
      var t := SplitOn(tail, sep);
      assert line + tail == [line[0]] + (line[1..] + tail);
      SplitJoinLine(line[1..], tail, sep);
      var inner := SplitOn(line[1..] + tail, sep);
      assert inner == [line[1..] + t[0]] + t[1..];
      SplitPrefixChar(line[0], line[1..] + tail, sep);
      assert inner[0] == line[1..] + t[0];
      assert inner[1..] == t[1..];
      assert [line[0]] + (line[1..] + t[0]) == line + t[0];
    }
  }

  lemma {:induction false} SplitJoin(xs: seq<string>, sep: char)
    requires |xs| > 0
    requires forall i :: 0 <= i < |xs| ==> sep !in xs[i]
    ensures SplitOn(Join(xs, [sep]), sep) == xs
    decreases |xs|
  {
    if |xs| == 1 {
      SplitJoinLine(xs[0], [], sep);
      assert xs[0] + [] == xs[0];
    } else {
      SplitJoin(xs[1..], sep);
      var tail := [sep] + Join(xs[1..], [sep]);
      assert Join(xs, [sep]) == xs[0] + tail;
      SplitJoinLine(xs[0], tail, sep);
      assert SplitOn(tail, sep) == [[]] + xs[1..];
      assert xs[0] + [] == xs[0];
    }
  }

  /** Python's `xs[i]` index normalisation inside a slice `xs[a:b]`. */
  function SliceIndex(i: int, n: nat): (k: nat)
    ensures k <= n
    ensures 0 <= i <= n ==> k == i
  {
    if i < 0 then (if n + i < 0 then 0 else n + i)
    else if i > n then n
    else i
  }

  /** `xs[a:b]`: negative bounds count from the end, and bounds are clamped. */
  function Slice<T>(xs: seq<T>, a: int, b: int): (r: seq<T>)
    ensures 0 <= a <= b <= |xs| ==> r == xs[a..b]
    ensures -|xs| <= a <= b < 0 ==> r == xs[|xs| + a..|xs| + b]
    ensures 0 <= a <= |xs| <= b ==> r == xs[a..]
    ensures a <= -|xs| && 0 <= b <= |xs| ==> r == xs[..b]
    ensures |r| <= |xs|
  {
    var i, j := SliceIndex(a, |xs|), SliceIndex(b, |xs|);
    if i < j then xs[i..j] else []
  }

  const TabSize: nat := 8

  function Spaces(n: nat): (r: string)
    ensures |r| == n && forall i :: 0 <= i < n ==> r[i] == ' '
  {
    seq(n, _ => ' ')
  }

  /** `s.expandtabs()` continuing at column `column`: a tab becomes the
      spaces up to the next multiple of 8; newline and carriage return
      restart the column. */
  function ExpandTabsFrom(s: string, column: nat): (r: string)
    ensures '\t' !in r
    ensures |r| >= |s|
    ensures '\t' !in s ==> r == s
    decreases |s|
  {
    if s == [] then []
    else if s[0] == '\t' then
      var width := TabSize - column % TabSize;
      Spaces(width) + ExpandTabsFrom(s[1..], column + width)
    else if s[0] == '\n' || s[0] == '\r' then
      [s[0]] + ExpandTabsFrom(s[1..], 0)
    else
      [s[0]] + ExpandTabsFrom(s[1..], column + 1)
  }

  /** `s.expandtabs()` with the default tab size 8. */
  function ExpandTabs(s: string): (r: string)
  {
    ExpandTabsFrom(s, 0)
  }

  /** Expanding tabs removes every tab and is idempotent. */
  lemma ExpandTabsIdempotent(s: string)
    ensures '\t' !in ExpandTabs(s)
    ensures ExpandTabs(ExpandTabs(s)) == ExpandTabs(s)
  {
  }

  function DigitChar(d: nat): (c: char)
    requires d < 10
    ensures '0' <= c <= '9' && c as int - '0' as int == d
  {
    "0123456789"[d]
  }

  predicate IsDecimal(s: string)
  {
    forall i :: 0 <= i < |s| ==> '0' <= s[i] <= '9'
  }

  /** The number a string of decimal digits denotes. */
  function DecimalValue(s: string): nat
    requires IsDecimal(s)
    decreases |s|
  {
    if s == [] then 0 else 10 * DecimalValue(s[..|s| - 1]) + (s[|s| - 1] as int - '0' as int)
  }

  /** `str(n)` for a non-negative integer: decimal digits, without leading zeros. */
  function NatToString(n: nat): (r: string)
    ensures r != [] && IsDecimal(r)
    ensures |r| > 1 ==> r[0] != '0'
    decreases n
  {
    if n < 10 then [DigitChar(n)] else NatToString(n / 10) + [DigitChar(n % 10)]
  }

  /** Reading the digits of `str(n)` back gives `n`. */
  lemma {:induction false} NatToStringRoundTrip(n: nat)
    ensures DecimalValue(NatToString(n)) == n
    decreases n
  {
    var r := NatToString(n);
    if n >= 10 {
      NatToStringRoundTrip(n / 10);
      assert r[..|r| - 1] == NatToString(n / 10);
    }
  }

  function Quote(s: string): string
  {
    "'" + s + "'"
  }

  function QuoteAll(xs: seq<string>): (r: seq<string>)
    ensures |r| == |xs| && forall i :: 0 <= i < |xs| ==> r[i] == Quote(xs[i])
  {
    seq(|xs|, i requires 0 <= i < |xs| => Quote(xs[i]))
  }

  /** `repr` of a list of strings, e.g. `['a', 'b']`. */
  function ReprStrings(xs: seq<string>): string
  {
    "[" + Join(QuoteAll(xs), ", ") + "]"
  }

  function NatStrings(xs: seq<nat>): (r: seq<string>)
    ensures |r| == |xs| && forall i :: 0 <= i < |xs| ==> r[i] == NatToString(xs[i])
  {
    seq(|xs|, i requires 0 <= i < |xs| => NatToString(xs[i]))
  }

  /** `repr` of a list of integers, e.g. `[1, 5]`. */
  function ReprNats(xs: seq<nat>): string
  {
    "[" + Join(NatStrings(xs), ", ") + "]"
  }

  /** Every element of a joined list occurs in the joined string. */
  lemma {:induction false} JoinHasElement(xs: seq<string>, sep: string, i: nat)
    requires i < |xs|
    ensures exists k :: IsOccurrence(Join(xs, sep), xs[i], k)
    decreases |xs|
  {
    var j := Join(xs, sep);
    if |xs| == 1 {
      assert IsOccurrence(j, xs[i], 0);
    } else if i == 0 {
      assert j == xs[0] + (sep + Join(xs[1..], sep));
      assert j[..|xs[0]|] == xs[0];
      assert IsOccurrence(j, xs[i], 0);
    } else {
      JoinHasElement(xs[1..], sep, i - 1);
      var k :| IsOccurrence(Join(xs[1..], sep), xs[1..][i - 1], k);
      var off := |xs[0]| + |sep|;
      assert j == (xs[0] + sep) + Join(xs[1..], sep);
      assert j[off + k..off + k + |xs[i]|] == Join(xs[1..], sep)[k..k + |xs[i]|];
      assert IsOccurrence(j, xs[i], off + k);
    }
  }

  /** A bracketed, comma-separated rendering of a list contains every element. */
  lemma BracketedHasElement(xs: seq<string>, i: nat)
    requires i < |xs|
    ensures Contains("[" + Join(xs, ", ") + "]", xs[i])
  {
    var inner := Join(xs, ", ");
    JoinHasElement(xs, ", ", i);
    var k :| IsOccurrence(inner, xs[i], k);
    var r := "[" + inner + "]";
    FindIsFirstOccurrence(r, xs[i]);
    assert r[1..1 + |inner|] == inner;
    assert r[1 + k..1 + k + |xs[i]|] == inner[k..k + |xs[i]|];
    assert IsOccurrence(r, xs[i], 1 + k);
  }

  /** The `repr` of a list of strings names every element, quoted. */
  lemma ReprNamesElement(xs: seq<string>, i: nat)
    requires i < |xs|
    ensures Contains(ReprStrings(xs), Quote(xs[i]))
  {
    BracketedHasElement(QuoteAll(xs), i);
  }

  /** The `repr` of a list of integers shows every element in decimal. */
  lemma ReprNatsElement(xs: seq<nat>, i: nat)
    requires i < |xs|
    ensures Contains(ReprNats(xs), NatToString(xs[i]))
  {
    BracketedHasElement(NatStrings(xs), i);
  }
}
