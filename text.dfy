/**
 * The JavaScript string primitives the menu parser relies on: the white-space
 * and line-terminator classes of ECMAScript regular expressions, `trim`,
 * `trimEnd`, `toLowerCase`, `split("\n")`, decimal `parseInt` and the
 * decimal rendering of a number in a template literal.
 */
module Text {

  /** ECMAScript WhiteSpace or LineTerminator: what `\s` matches and `trim` strips. */
  predicate IsSpace(c: char) {
    || c == '\t' || c == '\n' || c == '\U{000B}' || c == '\U{000C}' || c == '\r' || c == ' '
    || c == '\U{00A0}' || c == '\U{1680}' || ('\U{2000}' <= c <= '\U{200A}')
    || c == '\U{2028}' || c == '\U{2029}' || c == '\U{202F}' || c == '\U{205F}'
    || c == '\U{3000}' || c == '\U{FEFF}'
  }

  /** ECMAScript LineTerminator: the characters the regex `.` does not match. */
  predicate IsLineTerminator(c: char) {
    c == '\n' || c == '\r' || c == '\U{2028}' || c == '\U{2029}'
  }

  /** The regex class `\d`. */
  predicate IsDigit(c: char) {
    '0' <= c <= '9'
  }

  predicate AllSpaces(s: string) {
    forall i :: 0 <= i < |s| ==> IsSpace(s[i])
  }

  predicate NoLineTerminator(s: string) {
    forall i :: 0 <= i < |s| ==> !IsLineTerminator(s[i])
  }

  predicate AllDigits(s: string) {
    forall i :: 0 <= i < |s| ==> IsDigit(s[i])
  }

  /** The characters `s[i..j]` are all white space. */
  predicate SpacesIn(s: string, i: nat, j: nat)
    requires i <= j <= |s|
  {
    forall p :: i <= p < j ==> IsSpace(s[p])
  }

  /** The characters `s[i..j]` are all decimal digits. */
  predicate DigitsIn(s: string, i: nat, j: nat)
    requires i <= j <= |s|
  {
    forall p :: i <= p < j ==> IsDigit(s[p])
  }

  /** The regex `.` matches every character of `s[i..j]`. */
  predicate NoTerminatorIn(s: string, i: nat, j: nat)
    requires i <= j <= |s|
  {
    forall p :: i <= p < j ==> !IsLineTerminator(s[p])
  }

  // ---------------------------------------------------------------------------
  // Runs of one character class, measured from an index of a string
  // ---------------------------------------------------------------------------

  /** Length of the longest run of white space in `s` starting at `i`. */
  function SpaceRun(s: string, i: nat): (n: nat)
    ensures n == 0 || i + n <= |s|
    ensures forall j :: i <= j < i + n ==> IsSpace(s[j])
    ensures i + n >= |s| || !IsSpace(s[i + n])
    decreases |s| - i
  {
    if i < |s| && IsSpace(s[i]) then 1 + SpaceRun(s, i + 1) else 0
  }

  /** Length of the longest run of decimal digits in `s` starting at `i`. */
  function DigitRun(s: string, i: nat): (n: nat)
    ensures n == 0 || i + n <= |s|
    ensures forall j :: i <= j < i + n ==> IsDigit(s[j])
    ensures i + n >= |s| || !IsDigit(s[i + n])
    decreases |s| - i
  {
    if i < |s| && IsDigit(s[i]) then 1 + DigitRun(s, i + 1) else 0
  }

  /** Length of the longest run of characters `.` can match in `s` starting at `i`. */
  function LineRun(s: string, i: nat): (n: nat)
    ensures n == 0 || i + n <= |s|
    ensures forall j :: i <= j < i + n ==> !IsLineTerminator(s[j])
    ensures i + n >= |s| || IsLineTerminator(s[i + n])
    decreases |s| - i
  {
    if i < |s| && !IsLineTerminator(s[i]) then 1 + LineRun(s, i + 1) else 0
  }

  /** A white-space run ends exactly where the first non-space character stands. */
  lemma SpaceRunEnd(s: string, i: nat, j: nat)
    requires i <= j <= |s| && SpacesIn(s, i, j)
    requires j == |s| || !IsSpace(s[j])
    ensures i + SpaceRun(s, i) == j
  {
  }

  /** `s[i..j]` is all white space exactly when `j` is within the white-space run from `i`. */
  lemma SpaceRunBound(s: string, i: nat, j: nat)
    requires i <= j <= |s|
    ensures SpacesIn(s, i, j) <==> j <= i + SpaceRun(s, i)
  {
    if !SpacesIn(s, i, j) {
      var p :| i <= p < j && !IsSpace(s[p]);
      assert i + SpaceRun(s, i) <= p;
    }
  }

  /** A digit run ends exactly where the first non-digit stands. */
  lemma DigitRunEnd(s: string, i: nat, j: nat)
    requires i <= j <= |s| && DigitsIn(s, i, j)
    requires j == |s| || !IsDigit(s[j])
    ensures i + DigitRun(s, i) == j
  {
  }

  /** `.` matches all of `s[i..j]` exactly when `j` is within the run of non-terminators from `i`. */
  lemma LineRunBound(s: string, i: nat, j: nat)
    requires i <= j <= |s|
    ensures NoTerminatorIn(s, i, j) <==> j <= i + LineRun(s, i)
  {
    if !NoTerminatorIn(s, i, j) {
      var p :| i <= p < j && IsLineTerminator(s[p]);
      assert i + LineRun(s, i) <= p;
    }
  }

  // ---------------------------------------------------------------------------
  // trim, trimEnd
  // ---------------------------------------------------------------------------

  /** `s.trimStart()`: drops the leading white space and nothing else. */
  function TrimStart(s: string): (r: string)
    ensures |r| <= |s| && r == s[|s| - |r|..]
    ensures AllSpaces(s[..|s| - |r|])
    ensures r == [] || !IsSpace(r[0])
  {
    s[SpaceRun(s, 0)..]
  }

  /** `s.trimEnd()`: drops the trailing white space and nothing else. */
  function TrimEnd(s: string): (r: string)
    ensures |r| <= |s| && r == s[..|r|]
    ensures AllSpaces(s[|r|..])
    ensures r == [] || !IsSpace(r[|r| - 1])
  {
    if |s| > 0 && IsSpace(s[|s| - 1]) then
      var r := TrimEnd(s[..|s| - 1]);
      assert s[|r|..] == s[..|s| - 1][|r|..] + [s[|s| - 1]];
      r
    else
      s
  }

  /** `s.trim()`: no white space left at either end, and never longer; `TrimSlice` says which slice it is. */
  function Trim(s: string): (r: string)
    ensures |r| <= |s|
    ensures r == [] || (!IsSpace(r[0]) && !IsSpace(r[|r| - 1]))
  {
    TrimEnd(TrimStart(s))
  }

  /** What `trim` leaves: a slice of `s` with non-space ends, only white space cut off. */
  lemma TrimSlice(s: string) returns (a: nat)
    ensures a + |Trim(s)| <= |s| && Trim(s) == s[a..a + |Trim(s)|]
    ensures AllSpaces(s[..a]) && AllSpaces(s[a + |Trim(s)|..])
    ensures Trim(s) == [] || (!IsSpace(Trim(s)[0]) && !IsSpace(Trim(s)[|Trim(s)| - 1]))
  {
    var t := TrimStart(s);
    a := |s| - |t|;
    var r := TrimEnd(t);
    assert r == t[..|r|];
    assert s[a..a + |r|] == t[..|r|];
    assert s[a + |r|..] == t[|r|..];
  }

  /** A string without white space at its ends is its own `trim`. */
  lemma TrimOfTrimmed(s: string)
    requires s == [] || (!IsSpace(s[0]) && !IsSpace(s[|s| - 1]))
    ensures Trim(s) == s
  {
    assert TrimStart(s) == s;
  }

  /** `trim` yields the empty string exactly for all-white-space input. */
  lemma TrimEmpty(s: string)
    ensures Trim(s) == [] <==> AllSpaces(s)
  {
    var a := TrimSlice(s);
    if Trim(s) == [] {
      forall i | 0 <= i < |s| ensures IsSpace(s[i]) {
        if i < a { assert s[..a][i] == s[i]; } else { assert s[a..][i - a] == s[i]; }
      }
    } else {
      assert !IsSpace(s[a]);
    }
  }

  /** A line whose first character is not white space keeps it under `trim`. */
  lemma TrimFirst(s: string)
    requires |s| > 0 && !IsSpace(s[0])
    ensures |Trim(s)| > 0 && Trim(s)[0] == s[0]
  {
    assert TrimStart(s) == s;
  }

  /** Indentation in front of a non-space character does not change what `trim` leaves. */
  lemma TrimIndented(pad: string, x: string)
    requires AllSpaces(pad) && |x| > 0 && !IsSpace(x[0])
    ensures Trim(pad + x) == Trim(x)
  {
    var s := pad + x;
    assert SpacesIn(s, 0, |pad|) by {
      forall j | 0 <= j < |pad| ensures IsSpace(s[j]) { assert s[j] == pad[j]; }
    }
    SpaceRunEnd(s, 0, |pad|);
    assert TrimStart(s) == x;
    assert TrimStart(x) == x;
  }

  // ---------------------------------------------------------------------------
  // toLowerCase
  // ---------------------------------------------------------------------------

  /**
   * `toLowerCase` on one character, for the letters a menu label can use:
   * ASCII capitals, the Latin-1 capitals U+00C0..U+00DE (but U+00D7, the
   * multiplication sign) and the Kelvin sign, which lower-cases to `k`.
   */
  predicate IsUpper(c: char) {
    'A' <= c <= 'Z' || ('\U{00C0}' <= c <= '\U{00DE}' && c != '\U{00D7}')
  }

  function LowerChar(c: char): (l: char)
    ensures !IsUpper(l) && l != '\U{212A}'
    ensures IsUpper(c) ==> l as int == c as int + 32
    ensures c == '\U{212A}' ==> l == 'k'
    ensures !IsUpper(c) && c != '\U{212A}' ==> l == c
    ensures IsSpace(l) == IsSpace(c)
  {
    if IsUpper(c) then
      (c as int + 32) as char
    else if c == '\U{212A}' then
      'k'
    else
      c
  }

  /** `s.toLowerCase()`: every character lower-cased in place, so no capital is left. */
  function Lower(s: string): (r: string)
    ensures |r| == |s|
    ensures forall i :: 0 <= i < |s| ==> r[i] == LowerChar(s[i])
    ensures forall i :: 0 <= i < |r| ==> !IsUpper(r[i])
  {
    seq(|s|, i requires 0 <= i < |s| => LowerChar(s[i]))
  }

  /** A string with no capital in it is its own lower-case form. */
  lemma LowerOfLower(s: string)
    requires forall i :: 0 <= i < |s| ==> !IsUpper(s[i]) && s[i] != '\U{212A}'
    ensures Lower(s) == s
  {
  }

  /** Lower-casing keeps white space where it is, so a white-space run is as long after it. */
  lemma {:induction false} SpaceRunLower(s: string, i: nat)
    ensures SpaceRun(Lower(s), i) == SpaceRun(s, i)
    decreases |s| - i
  {
    if i < |s| && IsSpace(s[i]) {
      SpaceRunLower(s, i + 1);
    }
  }

  /** `trimEnd` cuts as much from the lower-case form as from the string. */
  lemma {:induction false} TrimEndLower(s: string)
    ensures TrimEnd(Lower(s)) == Lower(TrimEnd(s))
    decreases |s|
  {
    if |s| > 0 && IsSpace(s[|s| - 1]) {
      assert Lower(s)[..|s| - 1] == Lower(s[..|s| - 1]);
      TrimEndLower(s[..|s| - 1]);
    }
  }

  /** `trim` and `toLowerCase` can be applied in either order. */
  lemma TrimLowerCommute(s: string)
    ensures Trim(Lower(s)) == Lower(Trim(s))
  {
    SpaceRunLower(s, 0);
    var k := SpaceRun(s, 0);
    assert TrimStart(Lower(s)) == Lower(TrimStart(s)) by {
      assert Lower(s)[k..] == Lower(s[k..]);
    }
    TrimEndLower(TrimStart(s));
  }

  /** Lower-casing keeps white space where it is, so it commutes with `trim`. */
  lemma TrimLower(s: string)
    ensures Trim(Lower(Trim(s))) == Lower(Trim(s))
  {
    var a := TrimSlice(s);
    var t := Trim(s);
    var l := Lower(t);
    assert l == [] || (!IsSpace(l[0]) && !IsSpace(l[|l| - 1]));
    TrimOfTrimmed(l);
  }

  /** Lower-casing twice is lower-casing once. */
  lemma LowerIdempotent(s: string)
    ensures Lower(Lower(s)) == Lower(s)
  {
  }

  // ---------------------------------------------------------------------------
  // split("\n") and the text it came from
  // ---------------------------------------------------------------------------

  /** `s.split("\n")`: the pieces between line feeds; never empty. */
  function Split(s: string): (r: seq<string>)
    ensures |r| >= 1
    ensures forall i :: 0 <= i < |r| ==> '\n' !in r[i]
    ensures Join(r) == s
  {
    if s == [] then
      [[]]
    else
      var rest := Split(s[1..]);
      if s[0] == '\n' then [[]] + rest else [[s[0]] + rest[0]] + rest[1..]
  }

  /** The inverse of `Split`: the pieces glued back with line feeds. */
  function Join(lines: seq<string>): string
    requires |lines| >= 1
  {
    if |lines| == 1 then lines[0] else lines[0] + "\n" + Join(lines[1..])
  }

  lemma {:induction false} SplitAfterLine(x: string, y: string)
    requires '\n' !in x
    ensures Split(x + "\n" + y) == [x] + Split(y)
    decreases |x|
  {
    if x == [] {
      assert x + "\n" + y == ['\n'] + y;
      assert (['\n'] + y)[1..] == y;
    } else {
      SplitAfterLine(x[1..], y);
      assert (x + "\n" + y)[1..] == x[1..] + "\n" + y;
      assert [x[0]] + x[1..] == x;
    }
  }

  lemma {:induction false} SplitSingle(x: string)
    requires '\n' !in x
    ensures Split(x) == [x]
    decreases |x|
  {
    if x != [] {
      SplitSingle(x[1..]);
      assert [x[0]] + x[1..] == x;
    }
  }

  /** Splitting joined lines gives the lines back when none holds a line feed. */
  lemma {:induction false} SplitJoin(lines: seq<string>)
    requires |lines| >= 1
    requires forall i :: 0 <= i < |lines| ==> '\n' !in lines[i]
    ensures Split(Join(lines)) == lines
    decreases |lines|
  {
    if |lines| == 1 {
      SplitSingle(lines[0]);
    } else {
      SplitJoin(lines[1..]);
      SplitAfterLine(lines[0], Join(lines[1..]));
    }
  }

  // ---------------------------------------------------------------------------
  // Decimal numbers
  // ---------------------------------------------------------------------------

  function DigitValue(c: char): nat
    requires IsDigit(c)
  {
    c as int - '0' as int
  }

  function DigitChar(d: nat): (c: char)
    requires d < 10
    ensures IsDigit(c) && DigitValue(c) == d
  {
    ('0' as int + d) as char
  }

  /** `parseInt(d, 10)` of a string of decimal digits. */
  function DigitsValue(d: string): nat
    requires AllDigits(d)
  {
    if d == [] then 0 else 10 * DigitsValue(d[..|d| - 1]) + DigitValue(d[|d| - 1])
  }

  /** The decimal text of a number (`${n}`): digits only, no leading zero, read back as `n`. */
  function NatToString(n: nat): (s: string)
    ensures |s| > 0 && AllDigits(s)
    ensures s[0] == '0' ==> s == "0"
    ensures DigitsValue(s) == n
  {
    if n < 10 then
      [DigitChar(n)]
    else
      var s := NatToString(n / 10) + [DigitChar(n % 10)];
      assert s[..|s| - 1] == NatToString(n / 10);
      s
  }

  /** Distinct numbers have distinct decimal texts. */
  lemma NatToStringInjective(m: nat, n: nat)
    requires NatToString(m) == NatToString(n)
    ensures m == n
  {
  }
}
