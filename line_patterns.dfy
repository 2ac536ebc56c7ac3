/**
 * The line shapes `parseMenu` recognises: indentation by exactly 0, 2, 4 or 6
 * spaces, the option pattern `title - N día(s)` and the ingredient pattern
 * `name | qty | unit`.
 *
 * The two patterns are regular expressions in the source. Each is written here
 * as the search a backtracking matcher performs for it: a lazy group tries the
 * shortest length first, a greedy `\s*` the longest run first, and the first
 * success in that order is the match.
 */
module LinePatterns {
  import opened Text
  import opened Wrappers
  import opened MenuTypes

  // ---------------------------------------------------------------------------
  // Indentation
  // ---------------------------------------------------------------------------

  /** `/^[^\s]/.test(line)`: a section line. */
  predicate StartsSection(line: string) {
    |line| > 0 && !IsSpace(line[0])
  }

  /** `/^ {n}[^\s]/.test(line)`: exactly `n` spaces, then a character that is not white space. */
  predicate Indented(line: string, n: nat) {
    |line| > n && (forall i :: 0 <= i < n ==> line[i] == ' ') && !IsSpace(line[n])
  }

  /** A line has at most one indentation level. */
  lemma IndentationExclusive(line: string, m: nat, n: nat)
    requires Indented(line, m) && Indented(line, n)
    ensures m == n
  {
  }

  // ---------------------------------------------------------------------------
  // Option lines: /^  (.+?)\s*-\s*(\d+)\s*d[ií]as?$/i
  // ---------------------------------------------------------------------------

  /** `d[ií]as?` under the `i` flag: `d`, one of `i`/`í`, `a`, an optional `s`, in either case. */
  predicate IsDayUnit(u: string) {
    && (|u| == 3 || (|u| == 4 && (u[3] == 's' || u[3] == 'S')))
    && (u[0] == 'd' || u[0] == 'D')
    && (u[1] == 'i' || u[1] == 'I' || u[1] == '\U{00ED}' || u[1] == '\U{00CD}')
    && (u[2] == 'a' || u[2] == 'A')
  }

  /** Where the pieces of `\s*-\s*(\d+)\s*d[ií]as?$` start and end in an option line. */
  datatype DaysMatch = DaysMatch(dash: nat, digitsStart: nat, digitsEnd: nat, unitStart: nat)

  /** `line[k..]` is white space, `-`, white space, digits, white space and a day unit. */
  predicate DaysShape(line: string, k: nat, m: DaysMatch) {
    && k <= m.dash < m.digitsStart <= m.digitsEnd <= m.unitStart <= |line|
    && m.dash + 1 <= m.digitsStart && m.digitsStart < m.digitsEnd
    && SpacesIn(line, k, m.dash) && line[m.dash] == '-'
    && SpacesIn(line, m.dash + 1, m.digitsStart)
    && DigitsIn(line, m.digitsStart, m.digitsEnd)
    && SpacesIn(line, m.digitsEnd, m.unitStart)
    && IsDayUnit(line[m.unitStart..])
  }

  /**
   * Where a backtracking matcher looks for the pieces of the suffix after index
   * `k`: white space, `-`, white space, digits and white space are disjoint
   * classes, so each run is taken whole and the pieces can only stand here.
   */
  function SuffixCandidate(line: string, k: nat): DaysMatch {
    var a := k + SpaceRun(line, k);
    var b := a + 1 + SpaceRun(line, a + 1);
    var c := b + DigitRun(line, b);
    DaysMatch(a, b, c, c + SpaceRun(line, c))
  }

  /** `\s*-\s*(\d+)\s*d[ií]as?$` from index `k`: the candidate pieces, if they have the shape. */
  function DaysSuffix(line: string, k: nat): (r: Option<DaysMatch>)
    ensures r.Some? ==> DaysShape(line, k, r.value)
  {
    var m := SuffixCandidate(line, k);
    if DaysShape(line, k, m) then Some(m) else None
  }

  /** The suffix has only one decomposition, and `DaysSuffix` finds it. */
  lemma DaysSuffixComplete(line: string, k: nat, m: DaysMatch)
    requires DaysShape(line, k, m)
    ensures DaysSuffix(line, k) == Some(m)
  {
    CandidateFound(line, k, m);
  }

  /** The runs of a matching suffix are whole runs, so the candidate pieces are its pieces. */
  lemma CandidateFound(line: string, k: nat, m: DaysMatch)
    requires DaysShape(line, k, m)
    ensures SuffixCandidate(line, k) == m
  {
    LeadingRunsWhole(line, k, m);
    TrailingRunsWhole(line, k, m);
  }

  /** The white space around the dash of a matching suffix forms whole runs. */
  lemma LeadingRunsWhole(line: string, k: nat, m: DaysMatch)
    requires DaysShape(line, k, m)
    ensures k + SpaceRun(line, k) == m.dash
    ensures m.dash + 1 + SpaceRun(line, m.dash + 1) == m.digitsStart
  {
    SpaceRunEnd(line, k, m.dash);
    SpaceRunEnd(line, m.dash + 1, m.digitsStart);
  }

  /** The digits of a matching suffix and the white space after them form whole runs. */
  lemma TrailingRunsWhole(line: string, k: nat, m: DaysMatch)
    requires DaysShape(line, k, m)
    ensures m.digitsStart + DigitRun(line, m.digitsStart) == m.digitsEnd
    ensures m.digitsEnd + SpaceRun(line, m.digitsEnd) == m.unitStart
  {
    DigitRunEnd(line, m.digitsStart, m.digitsEnd);
    SpaceRunEnd(line, m.digitsEnd, m.unitStart);
  }

  /** A matching suffix holds exactly one `-`: the first character after its leading white space. */
  lemma DaysSuffixOneDash(line: string, k: nat, j: nat)
    requires k <= j < |line| && DaysSuffix(line, k).Some? && line[j] == '-'
    ensures j == DaysSuffix(line, k).value.dash
  {
  }

  /** The first index from `k` on whose entry in `ok` holds: a lazy group trying its ends in order. */
  function FirstFrom(ok: seq<bool>, k: nat): (r: Option<nat>)
    ensures r.Some? ==> k <= r.value < |ok| && ok[r.value]
    decreases |ok| - k
  {
    if k >= |ok| then None
    else if ok[k] then Some(k)
    else FirstFrom(ok, k + 1)
  }

  /** The lazy search stops no later than any end that works. */
  lemma {:induction false} FirstFromLeast(ok: seq<bool>, k: nat, k': nat)
    requires k <= k' < |ok| && ok[k']
    ensures FirstFrom(ok, k).Some? && FirstFrom(ok, k).value <= k'
    decreases |ok| - k
  {
    if !ok[k] {
      FirstFromLeast(ok, k + 1, k');
    }
  }

  /**
   * Entry `k` says whether `^  (.+?)` can end at `k` with the suffix matching
   * after it: the title is nonempty, `.` covers it, and `DaysSuffix` succeeds.
   */
  function TitleEnds(line: string): seq<bool> {
    seq(3 + LineRun(line, 2), k => 3 <= k && DaysSuffix(line, k).Some?)
  }

  /** The lazy title group: the first end after which the suffix matches. */
  function TitleEnd(line: string): (r: Option<nat>)
    ensures r.Some? ==> 3 <= r.value <= 2 + LineRun(line, 2) && DaysSuffix(line, r.value).Some?
  {
    var ok := TitleEnds(line);
    var r := FirstFrom(ok, 3);
    assert r.Some? ==> ok[r.value];
    r
  }

  /** The whole option pattern, with the title ending at `k` and the suffix split as `m`. */
  predicate OptionShape(line: string, k: nat, m: DaysMatch) {
    |line| >= 3 && line[0] == ' ' && line[1] == ' ' &&
    3 <= k <= |line| && NoTerminatorIn(line, 2, k) && DaysShape(line, k, m)
  }

  /** Every split with the option shape ends at or after the title end the lazy search finds. */
  lemma TitleEndLeast(line: string, k: nat, m: DaysMatch)
    requires OptionShape(line, k, m)
    ensures TitleEnd(line).Some? && TitleEnd(line).value <= k
  {
    DaysSuffixComplete(line, k, m);
    LineRunBound(line, 2, k);
    var ok := TitleEnds(line);
    assert ok[k];
    FirstFromLeast(ok, 3, k);
  }

  /** A split with the option shape such that no split with the shape ends the title earlier. */
  ghost predicate LeastOptionSplit(line: string, k: nat, m: DaysMatch) {
    OptionShape(line, k, m) && forall k': nat, m' :: OptionShape(line, k', m') ==> k <= k'
  }

  /** `{ title: match[1].trim(), days: parseInt(match[2], 10), dishes: [] }` for the split `k`, `m`. */
  function OptionOf(line: string, k: nat, m: DaysMatch): MenuOption
    requires OptionShape(line, k, m)
  {
    assert AllDigits(line[m.digitsStart..m.digitsEnd]);
    MenuOption(Trim(line[2..k]), DigitsValue(line[m.digitsStart..m.digitsEnd]), [])
  }

  /**
   * `line.match(/^  (.+?)\s*-\s*(\d+)\s*d[ií]as?$/i)` turned into an option.
   * The pattern matches exactly when some split of the line has the option
   * shape; the lazy title then ends at the earliest such split.
   */
  function ParseOptionLine(line: string): (r: Option<MenuOption>)
    ensures r.Some? ==> exists k: nat, m :: LeastOptionSplit(line, k, m) && r.value == OptionOf(line, k, m)
    ensures r.None? ==> forall k: nat, m :: !OptionShape(line, k, m)
  {
    if |line| >= 3 && line[0] == ' ' && line[1] == ' ' && TitleEnd(line).Some? then
      var k := TitleEnd(line).value;
      var m := DaysSuffix(line, k).value;
      OptionLineFound(line, k, m);
      Some(OptionOf(line, k, m))
    else
      forall k: nat, m | OptionShape(line, k, m) ensures false {
        TitleEndLeast(line, k, m);
      }
      None
  }

  /** The split the lazy search finds has the option shape, and no split with it ends earlier. */
  lemma OptionLineFound(line: string, k: nat, m: DaysMatch)
    requires |line| >= 3 && line[0] == ' ' && line[1] == ' '
    requires TitleEnd(line) == Some(k) && DaysSuffix(line, k) == Some(m)
    ensures LeastOptionSplit(line, k, m)
  {
    LineRunBound(line, 2, k);
    forall k': nat, m' | OptionShape(line, k', m') ensures k <= k' {
      TitleEndLeast(line, k', m');
    }
  }

  // ---------------------------------------------------------------------------
  // Reading back an option line written out in full
  // ---------------------------------------------------------------------------

  /** A title that `trim` keeps whole and that `.` matches throughout. */
  predicate CleanTitle(title: string) {
    && |title| > 0 && !IsSpace(title[0]) && !IsSpace(title[|title| - 1])
    && NoLineTerminator(title)
  }

  /** The option line `  <title> - <days> días`. */
  function OptionText(title: string, days: nat): string {
    "  " + title + " - " + NatToString(days) + " d\U{00ED}as"
  }

  /** The suffix split where the title has length `n` and the number `g` digits. */
  function LayoutMatch(n: nat, g: nat): DaysMatch {
    DaysMatch(3 + n, 5 + n, 5 + n + g, 6 + n + g)
  }

  /** `t` is two spaces, a clean title of length `n`, ` - `, `g` digits, a space and `días`. */
  predicate OptionLayout(t: string, n: nat, g: nat) {
    && |t| == 10 + n + g && n > 0 && g > 0
    && t[0] == ' ' && t[1] == ' '
    && !IsSpace(t[2]) && !IsSpace(t[1 + n]) && NoTerminatorIn(t, 2, 2 + n)
    && t[2 + n] == ' ' && t[3 + n] == '-' && t[4 + n] == ' '
    && DigitsIn(t, 5 + n, 5 + n + g) && t[5 + n + g] == ' '
    && IsDayUnit(t[6 + n + g..])
  }

  lemma LayoutShape(t: string, n: nat, g: nat)
    requires OptionLayout(t, n, g)
    ensures OptionShape(t, 2 + n, LayoutMatch(n, g))
  {
  }

  /** In an option line laid out in full, the title cannot end before its last character. */
  lemma LayoutLeast(t: string, n: nat, g: nat)
    requires OptionLayout(t, n, g)
    ensures LeastOptionSplit(t, 2 + n, LayoutMatch(n, g))
  {
    LayoutShape(t, n, g);
    forall k': nat, m' | OptionShape(t, k', m') ensures 2 + n <= k' {
      // A suffix from k' up to the separator has the separator as its one `-`,
      // so the white space before it cannot reach back to the title's last character.
      if k' <= 3 + n {
        DaysSuffixComplete(t, k', m');
        DaysSuffixOneDash(t, k', 3 + n);
      }
    }
  }

  /** Two least splits of an option line are the same split. */
  lemma LeastSplitUnique(line: string, k: nat, m: DaysMatch, k': nat, m': DaysMatch)
    requires LeastOptionSplit(line, k, m) && LeastOptionSplit(line, k', m')
    ensures k == k' && m == m'
  {
    DaysSuffixComplete(line, k, m);
    DaysSuffixComplete(line, k', m');
  }

  /** The option of the layout split is the title and the number of days. */
  lemma LayoutOption(t: string, n: nat, g: nat, title: string, days: nat)
    requires OptionLayout(t, n, g) && CleanTitle(title)
    requires t[2..2 + n] == title && t[5 + n..5 + n + g] == NatToString(days)
    ensures OptionShape(t, 2 + n, LayoutMatch(n, g))
    ensures OptionOf(t, 2 + n, LayoutMatch(n, g)) == MenuOption(title, days, [])
  {
    LayoutShape(t, n, g);
    TrimOfTrimmed(title);
  }

  /** An option line laid out in full reads back as its title and number of days. */
  lemma LayoutParse(t: string, n: nat, g: nat, title: string, days: nat)
    requires OptionLayout(t, n, g) && CleanTitle(title)
    requires t[2..2 + n] == title && t[5 + n..5 + n + g] == NatToString(days)
    ensures ParseOptionLine(t) == Some(MenuOption(title, days, []))
  {
    LayoutLeast(t, n, g);
    LayoutOption(t, n, g, title, days);
    var r := ParseOptionLine(t);
    var k: nat, m :| LeastOptionSplit(t, k, m) && r.value == OptionOf(t, k, m);
    LeastSplitUnique(t, k, m, 2 + n, LayoutMatch(n, g));
  }

  /** Where the pieces of `OptionText(title, days)` stand. */
  lemma OptionTextPieces(title: string, days: nat)
    ensures var t := OptionText(title, days); var n := |title|; var digits := NatToString(days); var g := |digits|;
      && |t| == 10 + n + g && t[..2] == "  " && t[2..2 + n] == title && t[2 + n..5 + n] == " - "
      && t[5 + n..5 + n + g] == digits && t[5 + n + g] == ' ' && t[6 + n + g..] == "d\U{00ED}as"
  {
    var n, digits := |title|, NatToString(days);
    var g := |digits|;
    var x1 := "  " + title;
    var x2 := x1 + " - ";
    var x3 := x2 + digits;
    var t := x3 + " d\U{00ED}as";
    assert t == OptionText(title, days);
    assert t[..|x3|] == x3 && x3[..|x2|] == x2 && x2[..|x1|] == x1;
    assert x1[..2] == "  " && x1[2..] == title;
    assert x2[|x1|..] == " - " && x3[|x2|..] == digits && t[|x3|..] == " d\U{00ED}as";
    assert t[..2] == x1[..2];
    assert t[2..2 + n] == x1[2..];
    assert t[2 + n..5 + n] == x2[|x1|..];
    assert t[5 + n..5 + n + g] == x3[|x2|..];
    assert t[5 + n + g] == t[|x3|..][0];
    assert t[6 + n + g..] == t[|x3|..][1..];
  }

  /** A slice's properties, read on the whole string. */
  lemma SliceFacts(t: string, lo: nat, hi: nat)
    requires lo <= hi <= |t|
    ensures NoLineTerminator(t[lo..hi]) ==> NoTerminatorIn(t, lo, hi)
    ensures AllDigits(t[lo..hi]) ==> DigitsIn(t, lo, hi)
    ensures hi > lo ==> t[lo] == t[lo..hi][0] && t[hi - 1] == t[lo..hi][hi - lo - 1]
  {
    assert forall j :: lo <= j < hi ==> t[j] == t[lo..hi][j - lo];
  }

  /** `OptionText(title, days)` is laid out in full. */
  lemma OptionTextLayout(title: string, days: nat)
    requires CleanTitle(title)
    ensures OptionLayout(OptionText(title, days), |title|, |NatToString(days)|)
  {
    var t := OptionText(title, days);
    var n, g := |title|, |NatToString(days)|;
    OptionTextPieces(title, days);
    SliceFacts(t, 2, 2 + n);
    SliceFacts(t, 5 + n, 5 + n + g);
    assert t[0] == t[..2][0] && t[1] == t[..2][1];
    assert t[2 + n] == t[2 + n..5 + n][0] && t[3 + n] == t[2 + n..5 + n][1] && t[4 + n] == t[2 + n..5 + n][2];
  }

  /**
   * An option line written as `  <title> - <days> días` reads back as an option
   * with that title and number of days, for a title without white space at its
   * ends or line terminators.
   */
  lemma OptionRoundTrip(title: string, days: nat)
    requires CleanTitle(title)
    ensures Indented(OptionText(title, days), 2)
    ensures ParseOptionLine(OptionText(title, days)) == Some(MenuOption(title, days, []))
  {
    OptionTextIndented(title, days);
    OptionTextParses(title, days);
  }

  lemma OptionTextIndented(title: string, days: nat)
    requires CleanTitle(title)
    ensures Indented(OptionText(title, days), 2)
  {
    OptionTextLayout(title, days);
  }

  lemma OptionTextParses(title: string, days: nat)
    requires CleanTitle(title)
    ensures ParseOptionLine(OptionText(title, days)) == Some(MenuOption(title, days, []))
  {
    OptionTextLayout(title, days);
    OptionTextPieces(title, days);
    LayoutParse(OptionText(title, days), |title|, |NatToString(days)|, title, days);
  }
}
