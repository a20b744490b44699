/**
  The pieces of `java.lang.String` the booking core relies on: `trim()`,
  `equalsIgnoreCase` (over ASCII letters) and decimal digits. Joining lines
  with '\n' is what the booking rendering does; splitting at '\n' is only
  its inverse, used to state the shape of that rendering.
 */
module Text {

  /** `trim()` removes every leading and trailing character up to U+0020. */
  predicate IsTrimmable(c: char)
  {
    c <= ' '
  }

  /** The first index from `st` on that `trim()` keeps: it skips characters up to U+0020. */
  function SkipBlanks(s: string, st: nat): (i: nat)
    requires st <= |s|
    ensures st <= i <= |s|
    ensures forall k :: st <= k < i ==> IsTrimmable(s[k])
    ensures i < |s| ==> !IsTrimmable(s[i])
    decreases |s| - st
  {
    if st < |s| && IsTrimmable(s[st]) then SkipBlanks(s, st + 1) else st
  }

  /** The end `trim()` keeps: it drops characters up to U+0020 from `len` back, never below `st`. */
  function DropBlanks(s: string, st: nat, len: nat): (j: nat)
    requires st <= len <= |s|
    ensures st <= j <= len
    ensures forall k :: j <= k < len ==> IsTrimmable(s[k])
    ensures st < j ==> !IsTrimmable(s[j - 1])
  {
    if st < len && IsTrimmable(s[len - 1]) then DropBlanks(s, st, len - 1) else len
  }

  /** Java's `String.trim()`: the substring between the two scans. */
  function Trim(s: string): string
  {
    var st := SkipBlanks(s, 0);
    s[st..DropBlanks(s, st, |s|)]
  }

  /** `trim().isEmpty()` holds exactly for blank input. */
  lemma TrimEmptyIffBlank(s: string)
    ensures Trim(s) == [] <==> forall k :: 0 <= k < |s| ==> IsTrimmable(s[k])
  {
  }

  /**
    The trimmed text is `s[i..j]`, where `i` is the length of the longest
    prefix of characters up to U+0020 and `|s| - j` that of the longest such
    suffix of the rest: everything cut off is blank, and a non-empty result
    starts and ends with a character above U+0020.
   */
  lemma TrimIsSlice(s: string)
    ensures var i := SkipBlanks(s, 0); var j := DropBlanks(s, i, |s|);
      && 0 <= i <= j <= |s| && Trim(s) == s[i..j]
      && (forall k :: 0 <= k < i ==> IsTrimmable(s[k]))
      && (forall k :: j <= k < |s| ==> IsTrimmable(s[k]))
      && (i < j ==> !IsTrimmable(s[i]) && !IsTrimmable(s[j - 1]))
  {
    var i := SkipBlanks(s, 0);
    var j := DropBlanks(s, i, |s|);
    assert Trim(s) == s[i..j];
  }

  /** ASCII upper-casing (Java's `Character.toUpperCase` on ASCII). */
  function ToUpper(c: char): char
  {
    if 'a' <= c <= 'z' then (c as int - 32) as char else c
  }

  /** ASCII lower-casing (Java's `Character.toLowerCase` on ASCII). */
  function ToLower(c: char): char
  {
    if 'A' <= c <= 'Z' then (c as int + 32) as char else c
  }

  /** The per-character test of `regionMatches(true, ...)`. */
  predicate CharsEqualIgnoreCase(c1: char, c2: char)
  {
    c1 == c2 || ToUpper(c1) == ToUpper(c2) || ToLower(ToUpper(c1)) == ToLower(ToUpper(c2))
  }

  /** Java's `a.equalsIgnoreCase(b)`: equal lengths and pairwise equal characters. */
  predicate EqualsIgnoreCase(a: string, b: string)
  {
    |a| == |b| && forall i :: 0 <= i < |a| ==> CharsEqualIgnoreCase(a[i], b[i])
  }

  /** Lower-case folding of a whole string, the reference for case-insensitive equality. */
  function FoldCase(s: string): (r: string)
    ensures |r| == |s|
    ensures forall i :: 0 <= i < |s| ==> r[i] == ToLower(s[i])
  {
    if s == [] then [] else [ToLower(s[0])] + FoldCase(s[1..])
  }

  lemma CharsEqualIgnoreCaseIffFold(c1: char, c2: char)
    ensures CharsEqualIgnoreCase(c1, c2) <==> ToLower(c1) == ToLower(c2)
  {
  }

  /** `equalsIgnoreCase` holds exactly when both sides fold to the same string. */
  lemma EqualsIgnoreCaseIffFold(a: string, b: string)
    ensures EqualsIgnoreCase(a, b) <==> FoldCase(a) == FoldCase(b)
  {
    if EqualsIgnoreCase(a, b) {
      forall i | 0 <= i < |a| ensures FoldCase(a)[i] == FoldCase(b)[i] {
        CharsEqualIgnoreCaseIffFold(a[i], b[i]);
      }
    }
    if FoldCase(a) == FoldCase(b) {
      forall i | 0 <= i < |a| ensures CharsEqualIgnoreCase(a[i], b[i]) {
        assert FoldCase(a)[i] == FoldCase(b)[i];
        CharsEqualIgnoreCaseIffFold(a[i], b[i]);
      }
    }
  }

  /** Case-insensitive equality is an equivalence: it is transitive. */
  lemma EqualsIgnoreCaseTransitive(a: string, b: string, c: string)
    requires EqualsIgnoreCase(a, b) && EqualsIgnoreCase(b, c)
    ensures EqualsIgnoreCase(a, c)
  {
    EqualsIgnoreCaseIffFold(a, b);
    EqualsIgnoreCaseIffFold(b, c);
    EqualsIgnoreCaseIffFold(a, c);
  }

  /** `\d` in a `java.util.regex` pattern: an ASCII decimal digit. */
  predicate IsDigit(c: char)
  {
    '0' <= c <= '9'
  }

  function DigitChar(d: nat): char
    requires d < 10
  {
    ('0' as int + d) as char
  }

  /** Decimal rendering of a natural number, without leading zeros. */
  function DecimalDigits(n: nat): (r: string)
    ensures 1 <= |r|
    ensures forall i :: 0 <= i < |r| ==> IsDigit(r[i])
    ensures n >= 10 ==> r[0] != '0'
    decreases n
  {
    if n < 10 then [DigitChar(n)] else DecimalDigits(n / 10) + [DigitChar(n % 10)]
  }

  /** Value of a string of decimal digits. */
  function DigitsValue(s: string): nat
    requires forall i :: 0 <= i < |s| ==> IsDigit(s[i])
  {
    if s == [] then 0
    else
      var last := s[|s| - 1];
      assert IsDigit(last);
      10 * DigitsValue(s[..|s| - 1]) + (last as int - '0' as int)
  }

  /** Reading the rendering back gives the number: `DecimalDigits` is injective. */
  lemma {:induction false} DecimalDigitsRoundTrip(n: nat)
    ensures DigitsValue(DecimalDigits(n)) == n
    decreases n
  {
    if n >= 10 {
      DecimalDigitsRoundTrip(n / 10);
      var r := DecimalDigits(n);
      assert r[..|r| - 1] == DecimalDigits(n / 10);
    }
  }

  /** Numbers of five digits, such as the receipt id, render as five characters. */
  lemma FiveDigitWidth(n: nat)
    requires 10000 <= n <= 99999
    ensures |DecimalDigits(n)| == 5
  {
    assert |DecimalDigits(n / 10000)| == 1;
    assert |DecimalDigits(n / 1000)| == 2;
    assert |DecimalDigits(n / 100)| == 3;
    assert |DecimalDigits(n / 10)| == 4;
  }

  /** Left-pads with zeros to at least `width` characters (`%0Nd`). */
  function ZeroPad(n: nat, width: nat): (r: string)
    ensures |r| == if |DecimalDigits(n)| < width then width else |DecimalDigits(n)|
    ensures forall i :: 0 <= i < |r| ==> IsDigit(r[i])
  {
    var d := DecimalDigits(n);
    if |d| < width then seq(width - |d|, _ => '0') + d else d
  }

  /** The text split at every '\n' (an empty text is one empty line). */
  function SplitLines(s: string): (lines: seq<string>)
    ensures |lines| >= 1
  {
    if '\n' !in s then [s]
    else
      var i := IndexOf(s, '\n');
      [s[..i]] + SplitLines(s[i + 1..])
  }

  /** Position of the first occurrence of `c` in `s`. */
  function IndexOf(s: string, c: char): (i: nat)
    requires c in s
    ensures i < |s| && s[i] == c && c !in s[..i]
  {
    if s[0] == c then 0 else 1 + IndexOf(s[1..], c)
  }

  /** Lines joined with a '\n' between consecutive ones. */
  function JoinLines(lines: seq<string>): string
  {
    if lines == [] then []
    else if |lines| == 1 then lines[0]
    else lines[0] + "\n" + JoinLines(lines[1..])
  }

  /** Joining two or more lines opens with the first and a '\n', and closes with a '\n' and the last. */
  lemma {:induction false} JoinLinesEnds(lines: seq<string>)
    requires |lines| >= 2
    ensures var text, head, tail := JoinLines(lines), lines[0] + "\n", "\n" + lines[|lines| - 1];
      && |text| >= |head| && text[..|head|] == head
      && |text| >= |tail| && text[|text| - |tail|..] == tail
  {
    var rest := JoinLines(lines[1..]);
    assert JoinLines(lines) == lines[0] + "\n" + rest;
    if |lines| > 2 {
      JoinLinesEnds(lines[1..]);
    }
  }

  /** Splitting undoes joining when no line holds a newline. */
  lemma {:induction false} SplitJoinLines(lines: seq<string>)
    requires |lines| >= 1
    requires forall k :: 0 <= k < |lines| ==> '\n' !in lines[k]
    ensures SplitLines(JoinLines(lines)) == lines
  {
    if |lines| > 1 {
      var s := JoinLines(lines);
      var head := lines[0];
      assert s == head + "\n" + JoinLines(lines[1..]);
      assert s[|head|] == '\n';
      assert '\n' in s;
      IndexOfAfterClean(head, JoinLines(lines[1..]));
      assert s[..|head|] == head;
      assert s[|head| + 1..] == JoinLines(lines[1..]);
      SplitJoinLines(lines[1..]);
    }
  }

  lemma IndexOfAfterClean(a: string, b: string)
    requires '\n' !in a
    ensures '\n' in a + "\n" + b && IndexOf(a + "\n" + b, '\n') == |a|
  {
    var s := a + "\n" + b;
    assert s[|a|] == '\n';
  }
}
