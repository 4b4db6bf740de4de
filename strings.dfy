/** Small optional-value datatype shared by every module. */
module Basics {
  datatype Option<+T> = None | Some(value: T)
}

/**
 * String primitives the repository relies on, with the exact semantics of the
 * two runtimes involved: Python's `str.strip()` and JavaScript's
 * `String.prototype.trim()` (they disagree on a few code points), single
 * character `split`, and decimal printing of non-negative integers.
 * Strings are sequences of Unicode code points.
 */
module Strings {
  import opened Basics

  /** Which language's notion of "whitespace" a trim uses. */
  datatype Runtime = JavaScript | Python

  /** JavaScript LineTerminator: the characters `.` in a regular expression does not match. */
  predicate IsLineTerminator(c: char) {
    c == '\n' || c == '\r' || c == '\U{2028}' || c == '\U{2029}'
  }

  /** Text a JavaScript `.` matches throughout. */
  predicate NoLineTerminator(s: string) { forall k :: 0 <= k < |s| ==> !IsLineTerminator(s[k]) }

  /** JavaScript WhiteSpace or LineTerminator: what `trim()` removes and `\s` matches. */
  predicate IsJsSpace(c: char) {
    || c == '\t' || c == '\U{000B}' || c == '\U{000C}' || c == ' '
    || c == '\U{00A0}' || c == '\U{1680}' || ('\U{2000}' <= c <= '\U{200A}')
    || c == '\U{202F}' || c == '\U{205F}' || c == '\U{3000}' || c == '\U{FEFF}'
    || IsLineTerminator(c)
  }

  /** Python `str.isspace()`: what `str.strip()` with no argument removes. */
  predicate IsPySpace(c: char) {
    || ('\t' <= c <= '\r') || ('\U{001C}' <= c <= '\U{001F}') || c == ' '
    || c == '\U{0085}' || c == '\U{00A0}' || c == '\U{1680}'
    || ('\U{2000}' <= c <= '\U{200A}') || c == '\U{2028}' || c == '\U{2029}'
    || c == '\U{202F}' || c == '\U{205F}' || c == '\U{3000}'
  }

  predicate IsSpace(rt: Runtime, c: char) {
    match rt
    case JavaScript => IsJsSpace(c)
    case Python => IsPySpace(c)
  }

  predicate AllSpace(rt: Runtime, s: string) {
    forall k :: 0 <= k < |s| ==> IsSpace(rt, s[k])
  }

  /** Index of the first non-whitespace character at or after `i` (or `|s|`). */
  function SkipSpace(s: string, rt: Runtime, i: nat): (n: nat)
    requires i <= |s|
    ensures i <= n <= |s|
    ensures forall k :: i <= k < n ==> IsSpace(rt, s[k])
    ensures n < |s| ==> !IsSpace(rt, s[n])
    decreases |s| - i
  {
    if i < |s| && IsSpace(rt, s[i]) then SkipSpace(s, rt, i + 1) else i
  }

  /** End of the text once the whitespace that ends `s[..j]` is dropped. */
  function SkipSpaceBack(s: string, rt: Runtime, j: nat): (n: nat)
    requires j <= |s|
    ensures n <= j
    ensures forall k :: n <= k < j ==> IsSpace(rt, s[k])
    ensures n > 0 ==> !IsSpace(rt, s[n - 1])
    decreases j
  {
    if j > 0 && IsSpace(rt, s[j - 1]) then SkipSpaceBack(s, rt, j - 1) else j
  }

  /** `strip()` (Python) or `trim()` (JavaScript): `s` without leading and trailing whitespace. */
  function Trim(s: string, rt: Runtime): (r: string)
    ensures r == [] || (!IsSpace(rt, r[0]) && !IsSpace(rt, r[|r| - 1]))
    ensures r == [] <==> AllSpace(rt, s)
    ensures IsInfix(r, s)
  {
    var i := SkipSpace(s, rt, 0);
    var j := SkipSpaceBack(s, rt, |s|);
    if i == |s| then
      assert s[0..0] == [];
      []
    else
      assert j > i;
      assert !AllSpace(rt, s) by { assert !IsSpace(rt, s[i]); }
      s[i..j]
  }

  lemma AllSpaceConcat(rt: Runtime, a: string, b: string)
    requires AllSpace(rt, a) && AllSpace(rt, b)
    ensures AllSpace(rt, a + b)
  {
    forall k | 0 <= k < |a + b| ensures IsSpace(rt, (a + b)[k]) {
      if k < |a| { assert (a + b)[k] == a[k]; } else { assert (a + b)[k] == b[k - |a|]; }
    }
  }

  /** `r` occurs in `s` as a contiguous block. */
  predicate IsInfix(r: string, s: string) {
    exists i, j :: 0 <= i <= j <= |s| && s[i..j] == r
  }

  /** Text that neither starts nor ends with whitespace is left as it is. */
  lemma TrimNoop(s: string, rt: Runtime)
    requires s == [] || (!IsSpace(rt, s[0]) && !IsSpace(rt, s[|s| - 1]))
    ensures Trim(s, rt) == s
  {
    if s != [] {
      assert SkipSpace(s, rt, 0) == 0;
      assert SkipSpaceBack(s, rt, |s|) == |s|;
      assert s[0..|s|] == s;
    }
  }

  /** Trimming twice is trimming once. */
  lemma TrimIdempotent(s: string, rt: Runtime)
    ensures Trim(Trim(s, rt), rt) == Trim(s, rt)
  {
    TrimNoop(Trim(s, rt), rt);
  }

  /** A block of `s` holds no character `s` lacks. */
  lemma InfixLacks(r: string, s: string, c: char)
    requires IsInfix(r, s) && c !in s
    ensures c !in r
  {
    var i, j :| 0 <= i <= j <= |s| && s[i..j] == r;
    forall k | 0 <= k < |r| ensures r[k] != c { assert r[k] == s[i + k]; }
  }

  /** First index of `c` in `s`, as `indexOf` / `find` return it. */
  function IndexOf(s: string, c: char): (r: Option<nat>)
    ensures r.None? <==> c !in s
    ensures r.Some? ==> r.value < |s| && s[r.value] == c && forall k :: 0 <= k < r.value ==> s[k] != c
    decreases |s|
  {
    if |s| == 0 then None
    else if s[0] == c then Some(0)
    else match IndexOf(s[1..], c)
      case None => None
      case Some(i) => Some(i + 1)
  }

  /** Last index of `c` in `s`, as `lastIndexOf` / `rfind` return it. */
  function LastIndexOf(s: string, c: char): (r: Option<nat>)
    ensures r.None? <==> c !in s
    ensures r.Some? ==> r.value < |s| && s[r.value] == c && c !in s[r.value + 1..]
    decreases |s|
  {
    if |s| == 0 then None
    else if s[|s| - 1] == c then Some(|s| - 1)
    else
      var r := LastIndexOf(s[..|s| - 1], c);
      assert r.Some? ==> s[r.value + 1..] == s[..|s| - 1][r.value + 1..] + [s[|s| - 1]];
      r
  }

  /** `s.split(sep)` for a one-character separator (identical in Python and JavaScript). */
  function Split(s: string, sep: char): (parts: seq<string>)
    ensures |parts| >= 1
    decreases |s|
  {
    match IndexOf(s, sep)
    case None => [s]
    case Some(i) => [s[..i]] + Split(s[i + 1..], sep)
  }

  /** No piece of a split contains the separator; there is one piece exactly when the separator is absent. */
  lemma {:induction false} SplitPieces(s: string, sep: char)
    ensures forall i :: 0 <= i < |Split(s, sep)| ==> sep !in Split(s, sep)[i]
    ensures |Split(s, sep)| == 1 <==> sep !in s
    decreases |s|
  {
    var idx := IndexOf(s, sep);
    if idx.Some? {
      var i := idx.value;
      SplitPieces(s[i + 1..], sep);
      assert sep !in s[..i] by {
        forall k | 0 <= k < i ensures s[..i][k] != sep { assert s[..i][k] == s[k]; }
      }
    }
  }

  /** `sep.join(parts)`. */
  function Join(parts: seq<string>, sep: char): string
  {
    if |parts| == 0 then ""
    else if |parts| == 1 then parts[0]
    else parts[0] + [sep] + Join(parts[1..], sep)
  }

  /** Splitting loses nothing: joining the pieces back gives the input. */
  lemma {:induction false} JoinSplit(s: string, sep: char)
    ensures Join(Split(s, sep), sep) == s
    decreases |s|
  {
    var idx := IndexOf(s, sep);
    if idx.Some? {
      var i := idx.value;
      var rest := Split(s[i + 1..], sep);
      JoinSplit(s[i + 1..], sep);
      assert Split(s, sep) == [s[..i]] + rest;
      JoinCons(s[..i], rest, sep);
      assert s[i..] == [sep] + s[i + 1..];
      assert s == s[..i] + s[i..];
    }
  }

  lemma JoinCons(head: string, rest: seq<string>, sep: char)
    requires |rest| >= 1
    ensures Join([head] + rest, sep) == head + [sep] + Join(rest, sep)
  {
    assert ([head] + rest)[1..] == rest;
  }

  /** Joining pieces that do not contain the separator and splitting again gives the pieces. */
  lemma {:induction false} SplitJoin(parts: seq<string>, sep: char)
    requires |parts| >= 1
    requires forall i :: 0 <= i < |parts| ==> sep !in parts[i]
    ensures Split(Join(parts, sep), sep) == parts
    decreases |parts|
  {
    if |parts| > 1 {
      var rest := Join(parts[1..], sep);
      var s := parts[0] + [sep] + rest;
      assert s[..|parts[0]|] == parts[0];
      assert s[|parts[0]| + 1..] == rest;
      assert IndexOf(s, sep) == Some(|parts[0]|) by {
        assert s[|parts[0]|] == sep;
      }
      SplitJoin(parts[1..], sep);
      assert [parts[0]] + parts[1..] == parts;
    }
  }

  /** A character that is neither the separator nor in any piece is not in the join. */
  lemma {:induction false} JoinLacks(parts: seq<string>, sep: char, c: char)
    requires c != sep && forall i :: 0 <= i < |parts| ==> c !in parts[i]
    ensures c !in Join(parts, sep)
    decreases |parts|
  {
    if |parts| > 1 {
      JoinLacks(parts[1..], sep, c);
      assert c !in parts[0];
    }
  }

  /** Joining two or more pieces puts the separator right after the first one. */
  lemma JoinHasSep(parts: seq<string>, sep: char)
    requires |parts| >= 2
    ensures var j := Join(parts, sep); |parts[0]| < |j| && j[|parts[0]|] == sep && j[..|parts[0]|] == parts[0]
  {
  }

  /** The first and last characters of a join come from the first and last pieces. */
  lemma {:induction false} JoinEnds(parts: seq<string>, sep: char)
    requires |parts| >= 1 && forall i :: 0 <= i < |parts| ==> parts[i] != []
    ensures var j := Join(parts, sep); j != [] && j[0] == parts[0][0] && j[|j| - 1] == parts[|parts| - 1][|parts[|parts| - 1]| - 1]
    decreases |parts|
  {
    if |parts| > 1 {
      JoinEnds(parts[1..], sep);
    }
  }

  /** Removes every occurrence of `pat`, scanning left to right (Python `s.replace(pat, '')`). */
  function RemoveAll(s: string, pat: string): (r: string)
    requires pat != []
    ensures |r| <= |s|
    decreases |s|
  {
    if |s| < |pat| then s
    else if s[..|pat|] == pat then RemoveAll(s[|pat|..], pat)
    else [s[0]] + RemoveAll(s[1..], pat)
  }

  predicate IsDigit(c: char) { '0' <= c <= '9' }

  predicate AllDigits(s: string) { forall k :: 0 <= k < |s| ==> IsDigit(s[k]) }

  function DigitChar(d: nat): (c: char)
    requires d < 10
    ensures IsDigit(c)
  {
    "0123456789"[d]
  }

  function DigitValue(c: char): nat
    requires IsDigit(c)
  {
    c as int - '0' as int
  }

  /** Value of a string of decimal digits. */
  function DecimalValue(s: string): nat
    requires AllDigits(s)
  {
    if |s| == 0 then 0 else 10 * DecimalValue(s[..|s| - 1]) + DigitValue(s[|s| - 1])
  }

  /** Decimal text of a non-negative integer, as `n.toString()` / `str(n)` print it. */
  function NatToString(n: nat): (s: string)
    ensures |s| >= 1 && AllDigits(s)
    ensures |s| > 1 ==> s[0] != '0'
    ensures DecimalValue(s) == n
    decreases n
  {
    if n < 10 then [DigitChar(n)]
    else
      var p := NatToString(n / 10);
      var s := p + [DigitChar(n % 10)];
      assert s[..|s| - 1] == p;
      s
  }

  /** Printing is injective: distinct numbers never print alike. */
  lemma NatToStringInjective(m: nat, n: nat)
    requires NatToString(m) == NatToString(n)
    ensures m == n
  {
  }

  /** `n` copies of `c`. */
  function Repeat(c: char, n: nat): (r: string)
    ensures |r| == n && forall k :: 0 <= k < n ==> r[k] == c
  {
    if n == 0 then [] else [c] + Repeat(c, n - 1)
  }

  /** `s.padStart(width, fill)`. */
  function PadStart(s: string, width: nat, fill: char): (r: string)
    ensures |r| == if |s| >= width then |s| else width
    ensures r[|r| - |s|..] == s
    ensures forall k :: 0 <= k < |r| - |s| ==> r[k] == fill
  {
    if |s| >= width then s else Repeat(fill, width - |s|) + s
  }

  /** Leading zeros do not change the value of a string of digits. */
  lemma {:induction false} DecimalLeadingZero(s: string)
    requires AllDigits(s)
    ensures AllDigits(['0'] + s) && DecimalValue(['0'] + s) == DecimalValue(s)
    decreases |s|
  {
    var t := ['0'] + s;
    if |s| > 0 {
      DecimalLeadingZero(s[..|s| - 1]);
      assert t[..|t| - 1] == ['0'] + s[..|s| - 1];
    }
  }

  lemma {:induction false} LeadingZeros(s: string, n: nat)
    requires AllDigits(s)
    ensures AllDigits(Repeat('0', n) + s) && DecimalValue(Repeat('0', n) + s) == DecimalValue(s)
    decreases n
  {
    if n > 0 {
      assert Repeat('0', n) + s == ['0'] + (Repeat('0', n - 1) + s);
      LeadingZeros(s, n - 1);
      DecimalLeadingZero(Repeat('0', n - 1) + s);
    } else {
      assert Repeat('0', n) + s == s;
    }
  }

  /** Padding a decimal string with zeros keeps the digits and their value. */
  lemma PadStartZeros(s: string, width: nat)
    requires AllDigits(s)
    ensures AllDigits(PadStart(s, width, '0')) && DecimalValue(PadStart(s, width, '0')) == DecimalValue(s)
  {
    if |s| < width {
      LeadingZeros(s, width - |s|);
    }
  }

  /**
   * The JavaScript `length` of a string: the number of UTF-16 code units,
   * two for every character outside the Basic Multilingual Plane.
   */
  function Utf16Length(s: string): (n: nat)
    ensures |s| <= n <= 2 * |s|
  {
    if |s| == 0 then 0
    else Utf16Length(s[..|s| - 1]) + (if s[|s| - 1] as int > 0xFFFF then 2 else 1)
  }
}
