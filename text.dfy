/**
 * The few string operations of Go's standard library that the core relies on:
 * `unicode.IsSpace`, `strings.TrimSpace`, `strings.HasPrefix`, `strings.HasSuffix`,
 * `strings.Split` on a one-character separator, `strings.Join`, and `%d` formatting
 * of a non-negative integer. Strings are sequences of Unicode code points.
 */
module Text {

  /** Go's `unicode.IsSpace`: the Latin-1 spaces and the other code points with the White_Space property. */
  predicate IsSpace(c: char) {
    || c == '\t' || c == '\n' || c == '\U{B}' || c == '\U{C}' || c == '\r' || c == ' '
    || c == '\U{85}' || c == '\U{A0}' || c == '\U{1680}'
    || ('\U{2000}' <= c <= '\U{200A}')
    || c == '\U{2028}' || c == '\U{2029}' || c == '\U{202F}' || c == '\U{205F}' || c == '\U{3000}'
  }

  predicate HasPrefix(s: string, prefix: string) {
    |prefix| <= |s| && s[..|prefix|] == prefix
  }

  predicate HasSuffix(s: string, suffix: string) {
    |suffix| <= |s| && s[|s| - |suffix|..] == suffix
  }

  /** Drops the leading white space: the result is a suffix of `s` and only spaces were dropped. */
  function TrimLeft(s: string): (r: string)
    ensures |r| <= |s| && r == s[|s| - |r|..]
    ensures r == [] || !IsSpace(r[0])
    ensures forall k :: 0 <= k < |s| - |r| ==> IsSpace(s[k])
  {
    if |s| > 0 && IsSpace(s[0]) then TrimLeft(s[1..]) else s
  }

  /** Drops the trailing white space: the result is a prefix of `s` and only spaces were dropped. */
  function TrimRight(s: string): (r: string)
    ensures |r| <= |s| && r == s[..|r|]
    ensures r == [] || !IsSpace(r[|r| - 1])
    ensures forall k :: |r| <= k < |s| ==> IsSpace(s[k])
  {
    if |s| > 0 && IsSpace(s[|s| - 1]) then TrimRight(s[..|s| - 1]) else s
  }

  /** Go's `strings.TrimSpace`: `s` without its leading and trailing white space. */
  function TrimSpace(s: string): (r: string)
    ensures r == [] || (!IsSpace(r[0]) && !IsSpace(r[|r| - 1]))
  {
    TrimRight(TrimLeft(s))
  }

  /** What TrimRight drops from a suffix of `s` are spaces of `s`. */
  lemma TrimRightOfSuffix(s: string, i: nat)
    requires i <= |s|
    ensures forall k :: i + |TrimRight(s[i..])| <= k < |s| ==> IsSpace(s[k])
  {
    var l := s[i..];
    forall k | i + |TrimRight(l)| <= k < |s|
      ensures IsSpace(s[k])
    {
      assert s[k] == l[k - i];
    }
  }

  /** What TrimSpace keeps is the slice `s[i..j]` of its input, with only spaces before and after it. */
  lemma TrimSpaceIsSlice(s: string) returns (i: nat, j: nat)
    ensures i <= j <= |s| && TrimSpace(s) == s[i..j]
    ensures forall k :: 0 <= k < i ==> IsSpace(s[k])
    ensures forall k :: j <= k < |s| ==> IsSpace(s[k])
  {
    i := |s| - |TrimLeft(s)|;
    TrimRightOfSuffix(s, i);
    j := i + |TrimSpace(s)|;
    assert TrimLeft(s) == s[i..];
  }

  /** A character absent from two strings is absent from their concatenation. */
  lemma NotInConcat(c: char, a: string, b: string)
    requires c !in a && c !in b
    ensures c !in a + b
  {
    assert forall i :: 0 <= i < |a + b| ==> (a + b)[i] == if i < |a| then a[i] else b[i - |a|];
  }

  /** Text that neither starts nor ends with a space is its own trimming. */
  lemma TrimSpaceOfUnpadded(s: string)
    requires |s| > 0 && !IsSpace(s[0]) && !IsSpace(s[|s| - 1])
    ensures TrimSpace(s) == s
  {
    assert TrimLeft(s) == s;
    assert TrimRight(s) == s;
  }

  /** The index of the first `c` in `s`, or -1 when there is none. */
  function IndexOf(s: string, c: char): (i: int)
    ensures -1 <= i < |s|
    ensures 0 <= i ==> s[i] == c
    ensures forall k :: 0 <= k < |s| && (i < 0 || k < i) ==> s[k] != c
  {
    if |s| == 0 then -1
    else if s[0] == c then 0
    else
      var j := IndexOf(s[1..], c);
      assert forall k :: 1 <= k < |s| ==> s[k] == s[1..][k - 1];
      if j == -1 then -1 else j + 1
  }

  /** Only one index holds the first `c`. */
  lemma FirstIndexUnique(s: string, c: char, i: nat, k: nat)
    requires i < |s| && s[i] == c && forall m :: 0 <= m < i ==> s[m] != c
    requires k < |s| && s[k] == c && forall m :: 0 <= m < k ==> s[m] != c
    ensures i == k
  {
  }

  /** The first separator of `a + [c] + t` is the first one in `a`, or else the one after `a`. */
  lemma IndexOfConcat(a: string, c: char, t: string)
    ensures IndexOf(a + [c] + t, c) == if c in a then IndexOf(a, c) else |a|
  {
    var s := a + [c] + t;
    assert forall m :: 0 <= m < |a| ==> s[m] == a[m];
    assert s[|a|] == c;
    if c in a {
      FirstIndexUnique(s, c, IndexOf(s, c), IndexOf(a, c));
    } else {
      FirstIndexUnique(s, c, IndexOf(s, c), |a|);
    }
  }

  /**
   * Go's `strings.Split(s, string(sep))`: the text before the first separator, then the
   * pieces of the rest; a text without separator is one piece.
   */
  function Split(s: string, sep: char): (parts: seq<string>)
    ensures |parts| >= 1
    decreases |s|
  {
    var i := IndexOf(s, sep);
    if i < 0 then [s] else [s[..i]] + Split(s[i + 1..], sep)
  }

  /** Go's `strings.Join`: the parts with `sep` between consecutive ones. */
  function Join(parts: seq<string>, sep: string): string
  {
    if |parts| == 0 then ""
    else if |parts| == 1 then parts[0]
    else parts[0] + sep + Join(parts[1..], sep)
  }

  /** Joining the pieces of a split with the separator gives back the original text. */
  lemma {:induction false} JoinSplit(s: string, sep: char)
    ensures Join(Split(s, sep), [sep]) == s
    decreases |s|
  {
    var i := IndexOf(s, sep);
    if 0 <= i {
      var rest := Split(s[i + 1..], sep);
      JoinSplit(s[i + 1..], sep);
      var parts := [s[..i]] + rest;
      assert parts[1..] == rest;
      assert Join(parts, [sep]) == s[..i] + [sep] + s[i + 1..];
      assert s == s[..i] + [s[i]] + s[i + 1..];
    }
  }

  lemma SplitWithoutSeparator(a: string, sep: char)
    requires sep !in a
    ensures Split(a, sep) == [a]
  {
  }

  lemma SplitAtSeparator(a: string, sep: char, t: string)
    requires sep !in a
    ensures Split(a + [sep] + t, sep) == [a] + Split(t, sep)
  {
    var s := a + [sep] + t;
    IndexOfConcat(a, sep, t);
    assert s[..|a|] == a && s[|a| + 1..] == t;
  }

  /** A text splits at its first separator. */
  lemma SplitAtFirst(s: string, sep: char, i: nat)
    requires i < |s| && s[i] == sep && forall m :: 0 <= m < i ==> s[m] != sep
    ensures Split(s, sep) == [s[..i]] + Split(s[i + 1..], sep)
  {
    FirstIndexUnique(s, sep, IndexOf(s, sep), i);
  }

  /** Splitting at one separator splits the two sides independently. */
  lemma {:induction false} SplitConcat(a: string, sep: char, t: string)
    ensures Split(a + [sep] + t, sep) == Split(a, sep) + Split(t, sep)
    decreases |a|
  {
    if sep !in a {
      SplitAtSeparator(a, sep, t);
    } else {
      var i := IndexOf(a, sep);
      var s := a + [sep] + t;
      assert forall m :: 0 <= m < |a| ==> s[m] == a[m];
      assert s[..i] == a[..i];
      assert s[i + 1..] == a[i + 1..] + [sep] + t;
      SplitAtFirst(s, sep, i);
      SplitConcat(a[i + 1..], sep, t);
      assert Split(a, sep) == [a[..i]] + Split(a[i + 1..], sep);
    }
  }

  /** Splitting a join of separator-free parts gives back the parts. */
  lemma {:induction false} SplitJoin(parts: seq<string>, sep: char)
    requires |parts| >= 1
    requires forall k :: 0 <= k < |parts| ==> sep !in parts[k]
    ensures Split(Join(parts, [sep]), sep) == parts
  {
    if |parts| == 1 {
      SplitWithoutSeparator(parts[0], sep);
    } else {
      SplitAtSeparator(parts[0], sep, Join(parts[1..], [sep]));
      SplitJoin(parts[1..], sep);
      assert [parts[0]] + parts[1..] == parts;
    }
  }

  predicate IsDigit(c: char) {
    '0' <= c <= '9'
  }

  function DigitChar(d: nat): (c: char)
    requires d < 10
    ensures IsDigit(c) && c as int - '0' as int == d
  {
    ('0' as int + d) as char
  }

  /** Go's `%d` for a non-negative integer: its decimal digits, most significant first. */
  function NatToString(n: nat): (s: string)
    ensures |s| >= 1
    ensures forall k :: 0 <= k < |s| ==> IsDigit(s[k])
  {
    if n < 10 then [DigitChar(n)] else NatToString(n / 10) + [DigitChar(n % 10)]
  }

  /** The number a string of decimal digits denotes. */
  function DecimalValue(s: string): nat
    requires forall k :: 0 <= k < |s| ==> IsDigit(s[k])
  {
    if |s| == 0 then 0
    else
      assert IsDigit(s[|s| - 1]);
      DecimalValue(s[..|s| - 1]) * 10 + (s[|s| - 1] as int - '0' as int)
  }

  /** Reading back the digits that `%d` prints gives the number. */
  lemma {:induction false} DecimalRoundTrip(n: nat)
    ensures DecimalValue(NatToString(n)) == n
  {
    if n >= 10 {
      var s := NatToString(n);
      assert s[..|s| - 1] == NatToString(n / 10);
      DecimalRoundTrip(n / 10);
    }
  }
}
