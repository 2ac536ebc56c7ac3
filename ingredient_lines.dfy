/**
 * Ingredient lines: the trimmed text of a line indented by six spaces is
 * matched against `^(.+?)\s*\|\s*(.+?)\s*\|\s*(.+)$`, and a line that does not
 * match becomes an ingredient with its whole text as the name.
 *
 * `IngShape` says which splits of the line the pattern accepts and `Before`
 * the order in which a backtracking matcher tries them: the lazy groups
 * shortest first, the greedy `\s*` runs longest first. The match is the first
 * split in that order (`FirstSplit`); `MatchIngredient` performs the search.
 */
module IngredientLines {
  import opened Text
  import opened Wrappers
  import opened MenuTypes

  /** Where the quantity ends, the second `|` stands and the unit starts. */
  datatype Tail = Tail(qtyEnd: nat, bar2: nat, unitStart: nat)

  /** Where the name ends, the first `|` stands, the quantity starts, and the rest. */
  datatype BarSplit = BarSplit(nameEnd: nat, bar1: nat, qtyStart: nat, rest: Tail)

  /** `(.+)$` from `u`: at least one character, and `.` matches every one of them up to the end. */
  predicate UnitOk(t: string, u: nat) {
    u < |t| && NoTerminatorIn(t, u, |t|)
  }

  /** `\s*\|\s*(.+)$` from `e`, with the `|` at `b` and the unit from `u`. */
  predicate UnitPart(t: string, e: nat, b: nat, u: nat) {
    e <= b < u <= |t| && SpacesIn(t, e, b) && t[b] == '|' && SpacesIn(t, b + 1, u) && UnitOk(t, u)
  }

  /** `(.+?)\s*\|\s*(.+)$` with the quantity group starting at `q`. */
  predicate TailOk(t: string, q: nat, x: Tail) {
    q < x.qtyEnd <= |t| && NoTerminatorIn(t, q, x.qtyEnd) && UnitPart(t, x.qtyEnd, x.bar2, x.unitStart)
  }

  /** The whole pattern, split as `m`. */
  predicate IngShape(t: string, m: BarSplit) {
    && 0 < m.nameEnd <= m.bar1 < m.qtyStart <= |t|
    && NoTerminatorIn(t, 0, m.nameEnd) && SpacesIn(t, m.nameEnd, m.bar1) && t[m.bar1] == '|'
    && SpacesIn(t, m.bar1 + 1, m.qtyStart) && TailOk(t, m.qtyStart, m.rest)
  }

  /** Shorter quantities first, then longer white space before the unit. */
  predicate TailBefore(x: Tail, x': Tail) {
    x.qtyEnd < x'.qtyEnd || (x.qtyEnd == x'.qtyEnd && x.unitStart >= x'.unitStart)
  }

  /** Shorter names first, then longer white space before the quantity, then the rest. */
  predicate Before(m: BarSplit, m': BarSplit) {
    || m.nameEnd < m'.nameEnd
    || (m.nameEnd == m'.nameEnd &&
         (m.qtyStart > m'.qtyStart || (m.qtyStart == m'.qtyStart && TailBefore(m.rest, m'.rest))))
  }

  /** `m` has the shape, and the matcher tries it no later than any other split with the shape. */
  ghost predicate FirstSplit(t: string, m: BarSplit) {
    IngShape(t, m) && forall m' :: IngShape(t, m') ==> Before(m, m')
  }

  /** The first tail from `q` in the matcher's order. */
  ghost predicate FirstTail(t: string, q: nat, x: Tail) {
    TailOk(t, q, x) && forall x' :: TailOk(t, q, x') ==> TailBefore(x, x')
  }

  // ---------------------------------------------------------------------------
  // The search
  // ---------------------------------------------------------------------------

  /** Greedy `\s*` after the `|` at `b`, then `(.+)$`: the largest unit start that works. */
  method UnitScan(t: string, b: nat) returns (u: Option<nat>)
    requires b < |t|
    ensures u.Some? ==> b < u.value <= b + 1 + SpaceRun(t, b + 1) && UnitOk(t, u.value)
    ensures forall u' :: b < u' <= b + 1 + SpaceRun(t, b + 1) && UnitOk(t, u') ==> u.Some? && u' <= u.value
  {
    var s := b + 1 + SpaceRun(t, b + 1);
    while s > b
      invariant b <= s <= b + 1 + SpaceRun(t, b + 1)
      invariant forall u' :: s < u' <= b + 1 + SpaceRun(t, b + 1) ==> !UnitOk(t, u')
    {
      if UnitOk(t, s) {
        return Some(s);
      }
      s := s - 1;
    }
    return None;
  }

  /** `\s*\|\s*(.+)$` from `e`: a tail is possible only with the `|` right after the white-space run. */
  lemma UnitPartBar(t: string, e: nat, b: nat, u: nat)
    requires UnitPart(t, e, b, u)
    ensures b == e + SpaceRun(t, e) && u <= b + 1 + SpaceRun(t, b + 1)
  {
    SpaceRunEnd(t, e, b);
    SpaceRunBound(t, b + 1, u);
  }

  /** Lazy `(.+?)` for the quantity from `q`, then the rest: the first tail in the matcher's order. */
  method TailScan(t: string, q: nat) returns (x: Option<Tail>)
    ensures x.Some? ==> FirstTail(t, q, x.value)
    ensures x.None? ==> forall x' :: !TailOk(t, q, x')
  {
    var e := q + 1;
    while e <= q + LineRun(t, q)
      invariant q < e
      invariant forall x' :: TailOk(t, q, x') ==> e <= x'.qtyEnd
      decreases q + LineRun(t, q) + 1 - e
    {
      var b := e + SpaceRun(t, e);
      var u := None;
      if b < |t| && t[b] == '|' {
        u := UnitScan(t, b);
        if u.Some? {
          TailFound(t, q, e, b, u.value);
          return Some(Tail(e, b, u.value));
        }
      }
      TailSkipped(t, q, e, u);
      e := e + 1;
    }
    forall x' | TailOk(t, q, x') ensures false {
      LineRunBound(t, q, x'.qtyEnd);
    }
    return None;
  }

  /** The first quantity end whose rest works, with the greedy unit start, gives the first tail. */
  lemma TailFound(t: string, q: nat, e: nat, b: nat, u: nat)
    requires q < e <= q + LineRun(t, q) && b == e + SpaceRun(t, e) && b < |t| && t[b] == '|'
    requires b < u <= b + 1 + SpaceRun(t, b + 1) && UnitOk(t, u)
    requires forall u' :: b < u' <= b + 1 + SpaceRun(t, b + 1) && UnitOk(t, u') ==> u' <= u
    requires forall x' :: TailOk(t, q, x') ==> e <= x'.qtyEnd
    ensures FirstTail(t, q, Tail(e, b, u))
  {
    TailAt(t, q, e, b, u);
    forall x' | TailOk(t, q, x') ensures TailBefore(Tail(e, b, u), x') {
      if x'.qtyEnd == e {
        UnitPartBar(t, e, x'.bar2, x'.unitStart);
      }
    }
  }

  /** A quantity end within the line's first run of `.`, a `|` after the white space, and a unit. */
  lemma TailAt(t: string, q: nat, e: nat, b: nat, u: nat)
    requires q < e <= q + LineRun(t, q) && b == e + SpaceRun(t, e) && b < |t| && t[b] == '|'
    requires b < u <= b + 1 + SpaceRun(t, b + 1) && UnitOk(t, u)
    ensures TailOk(t, q, Tail(e, b, u))
  {
    LineRunBound(t, q, e);
    SpaceRunBound(t, e, b);
    SpaceRunBound(t, b + 1, u);
  }

  /** A quantity end whose rest fails ends no tail. */
  lemma TailSkipped(t: string, q: nat, e: nat, u: Option<nat>)
    requires var b := e + SpaceRun(t, e);
      && u.None?
      && (b < |t| && t[b] == '|' ==> forall u' :: b < u' <= b + 1 + SpaceRun(t, b + 1) ==> !UnitOk(t, u'))
    requires forall x' :: TailOk(t, q, x') ==> e <= x'.qtyEnd
    ensures forall x' :: TailOk(t, q, x') ==> e + 1 <= x'.qtyEnd
  {
    forall x' | TailOk(t, q, x') ensures e + 1 <= x'.qtyEnd {
      if x'.qtyEnd == e {
        UnitPartBar(t, e, x'.bar2, x'.unitStart);
      }
    }
  }

  /**
   * Greedy `\s*` after the first `|` at `p`, then the rest: the largest
   * quantity start with a tail, and the first tail from it.
   */
  method QtyScan(t: string, i: nat, p: nat) returns (r: Option<BarSplit>)
    requires 0 < i <= LineRun(t, 0) && p == i + SpaceRun(t, i) && p < |t| && t[p] == '|'
    ensures r.Some? ==> r.value.nameEnd == i && IngShape(t, r.value)
    ensures r.Some? ==> forall m :: IngShape(t, m) && m.nameEnd == i ==> Before(r.value, m)
    ensures r.None? ==> forall m :: IngShape(t, m) ==> m.nameEnd != i
  {
    var q := p + 1 + SpaceRun(t, p + 1);
    forall m | IngShape(t, m) && m.nameEnd == i ensures m.bar1 == p && m.qtyStart <= q {
      SpaceRunEnd(t, i, m.bar1);
      SpaceRunBound(t, p + 1, m.qtyStart);
    }
    while q > p
      invariant p < q + 1 <= p + 2 + SpaceRun(t, p + 1)
      invariant forall m :: IngShape(t, m) && m.nameEnd == i ==> m.bar1 == p && m.qtyStart <= q
    {
      var x := TailScan(t, q);
      if x.Some? {
        LineRunBound(t, 0, i);
        SpaceRunBound(t, i, p);
        SpaceRunBound(t, p + 1, q);
        return Some(BarSplit(i, p, q, x.value));
      }
      q := q - 1;
    }
    return None;
  }

  /**
   * `trimmedLine.match(/^(.+?)\s*\|\s*(.+?)\s*\|\s*(.+)$/)`: the split of the
   * match, the first split with the shape in the matcher's order, or `None`
   * when no split has the shape.
   */
  method MatchIngredient(t: string) returns (r: Option<BarSplit>)
    ensures r.Some? ==> FirstSplit(t, r.value)
    ensures r.None? ==> forall m :: !IngShape(t, m)
  {
    var i := 1;
    while i <= LineRun(t, 0)
      invariant 1 <= i
      invariant forall m :: IngShape(t, m) ==> i <= m.nameEnd
      decreases LineRun(t, 0) + 1 - i
    {
      var p := i + SpaceRun(t, i);
      if p < |t| && t[p] == '|' {
        r := QtyScan(t, i, p);
        if r.Some? {
          return;
        }
      } else {
        forall m | IngShape(t, m) && m.nameEnd == i ensures false {
          SpaceRunEnd(t, i, m.bar1);
        }
      }
      i := i + 1;
    }
    forall m | IngShape(t, m) ensures false {
      LineRunBound(t, 0, m.nameEnd);
    }
    return None;
  }

  /** The three groups of `m` are slices of `t`; every split with the shape has this. */
  predicate GroupsInRange(t: string, m: BarSplit) {
    m.nameEnd <= |t| && m.qtyStart <= m.rest.qtyEnd <= |t| && m.rest.unitStart <= |t|
  }

  /** `{ name: ingMatch[1].trim(), qty: ingMatch[2].trim(), unit: ingMatch[3].trim() }` */
  function IngredientOf(t: string, m: BarSplit): Ingredient
    requires GroupsInRange(t, m)
  {
    Ingredient(Trim(t[..m.nameEnd]), Trim(t[m.qtyStart..m.rest.qtyEnd]), Trim(t[m.rest.unitStart..]))
  }

  /** Two first splits are the same split: the match is unique. */
  lemma FirstSplitUnique(t: string, m1: BarSplit, m2: BarSplit)
    requires FirstSplit(t, m1) && FirstSplit(t, m2)
    ensures m1 == m2
  {
    assert Before(m1, m2) && Before(m2, m1);
    SpaceRunEnd(t, m1.nameEnd, m1.bar1);
    SpaceRunEnd(t, m2.nameEnd, m2.bar1);
    UnitPartBar(t, m1.rest.qtyEnd, m1.rest.bar2, m1.rest.unitStart);
    UnitPartBar(t, m2.rest.qtyEnd, m2.rest.bar2, m2.rest.unitStart);
  }

  /** With a first split, the ingredient is made of its three groups. */
  lemma IngredientOfFirst(t: string, m: BarSplit)
    requires FirstSplit(t, m)
    ensures IngredientFor(t) == IngredientOf(t, m)
  {
    forall m' | FirstSplit(t, m') ensures m' == m {
      FirstSplitUnique(t, m', m);
    }
  }

  /** The ingredient a line indented by six spaces adds, given its trimmed text `t`. */
  ghost function IngredientFor(t: string): Ingredient {
    if exists m :: FirstSplit(t, m) then
      var m :| FirstSplit(t, m);
      IngredientOf(t, m)
    else
      Ingredient(t, "", "")
  }

  /**
   * The ingredient pushed for a six-space line (the `if (ingMatch)` branch and
   * its `else`): the three trimmed groups of the match, or the whole trimmed
   * line as the name with empty quantity and unit.
   */
  method ParseIngredient(t: string) returns (ing: Ingredient)
    ensures ing == IngredientFor(t)
  {
    var r := MatchIngredient(t);
    if r.Some? {
      ing := IngredientOf(t, r.value);
      IngredientOfFirst(t, r.value);
    } else {
      ing := Ingredient(t, "", "");
    }
  }

  // ---------------------------------------------------------------------------
  // Properties
  // ---------------------------------------------------------------------------

  /** A line without `|` never matches: its whole text is the name. */
  lemma NoBarFallback(t: string)
    requires '|' !in t
    ensures IngredientFor(t) == Ingredient(t, "", "")
  {
  }

  /** A split needs two `|`: a line with a single `|` keeps its whole text as the name. */
  lemma OneBarFallback(t: string, k: nat)
    requires k < |t| && forall j :: 0 <= j < |t| && t[j] == '|' ==> j == k
    ensures IngredientFor(t) == Ingredient(t, "", "")
  {
  }

  // ---------------------------------------------------------------------------
  // The displayed ingredient text and its round trip
  // ---------------------------------------------------------------------------

  /** The text a card shows for an ingredient: the name, then ` | qty` and ` | unit` when not empty. */
  function IngredientText(ing: Ingredient): (r: string)
    ensures ing.name <= r
    ensures r == ing.name <==> ing.qty == "" && ing.unit == ""
  {
    var withQty := if ing.qty != "" then ing.name + " | " + ing.qty else ing.name;
    if ing.unit != "" then withQty + " | " + ing.unit else withQty
  }

  /** A field that survives `trim` and the pattern's `.`: not empty, no white space at its ends, no line terminator. */
  predicate CleanField(s: string) {
    |s| > 0 && !IsSpace(s[0]) && !IsSpace(s[|s| - 1]) && NoLineTerminator(s)
  }

  /** An ingredient whose card text reads back as itself: three clean fields, no `|` in the first two. */
  predicate Displayable(ing: Ingredient) {
    CleanField(ing.name) && CleanField(ing.qty) && CleanField(ing.unit) && '|' !in ing.name && '|' !in ing.qty
  }

  /** `t[lo..hi]` is a clean field. */
  predicate FieldAt(t: string, lo: nat, hi: nat) {
    lo < hi <= |t| && !IsSpace(t[lo]) && !IsSpace(t[hi - 1]) && NoTerminatorIn(t, lo, hi)
  }

  /** `t[lo..hi]` holds no `|`. */
  predicate BarFree(t: string, lo: nat, hi: nat) {
    forall k :: lo <= k < hi && k < |t| ==> t[k] != '|'
  }

  /** `t[k..k + 3]` is the separator ` | `. */
  predicate SeparatorAt(t: string, k: nat) {
    k + 3 <= |t| && t[k] == ' ' && t[k + 1] == '|' && t[k + 2] == ' '
  }

  /** `t` is a name of length `n`, ` | `, a quantity of length `q`, ` | ` and a unit. */
  predicate DisplayedAt(t: string, n: nat, q: nat) {
    HeadAt(t, n, q) && SeparatorAt(t, n + 3 + q) && FieldAt(t, n + 6 + q, |t|)
  }

  /** `t` starts with a name of length `n`, ` | ` and a quantity of length `q`, neither holding `|`. */
  predicate HeadAt(t: string, n: nat, q: nat) {
    && FieldAt(t, 0, n) && BarFree(t, 0, n) && SeparatorAt(t, n)
    && FieldAt(t, n + 3, n + 3 + q) && BarFree(t, n + 3, n + 3 + q)
  }

  /** The split at the separators: each `|` with one space on either side. */
  function SeparatorSplit(n: nat, q: nat): BarSplit {
    BarSplit(n, n + 1, n + 3, Tail(n + 3 + q, n + 4 + q, n + 6 + q))
  }

  /** A `|` reached over white space from inside a field without `|` lies past the field. */
  lemma BarPastField(t: string, lo: nat, hi: nat, i: nat, b: nat)
    requires lo <= i <= b < |t| && lo < hi <= |t| && SpacesIn(t, i, b) && t[b] == '|'
    requires BarFree(t, lo, hi) && !IsSpace(t[hi - 1])
    ensures hi <= i
  {
  }

  /** Text laid out with separators has its separator split as the shape. */
  lemma SeparatorShape(t: string, n: nat, q: nat)
    requires DisplayedAt(t, n, q)
    ensures IngShape(t, SeparatorSplit(n, q))
  {
  }

  /** In text laid out with separators, no split comes before the separator split. */
  lemma SeparatorFirst(t: string, n: nat, q: nat)
    requires DisplayedAt(t, n, q)
    ensures FirstSplit(t, SeparatorSplit(n, q))
  {
    SeparatorShape(t, n, q);
    forall m' | IngShape(t, m') ensures Before(SeparatorSplit(n, q), m') {
      BarPastField(t, 0, n, m'.nameEnd, m'.bar1);
      if m'.nameEnd == n {
        assert m'.bar1 == n + 1;
        if m'.qtyStart == n + 3 {
          BarPastField(t, n + 3, n + 3 + q, m'.rest.qtyEnd, m'.rest.bar2);
          if m'.rest.qtyEnd == n + 3 + q {
            assert m'.rest.bar2 == n + 4 + q;
          }
        }
      }
    }
  }

  /** A clean string is a clean field of itself. */
  lemma FieldWhole(f: string)
    requires CleanField(f)
    ensures FieldAt(f, 0, |f|) && ('|' !in f ==> BarFree(f, 0, |f|))
  {
  }

  /** A clean string appended to `a` is a clean field of the result. */
  lemma FieldAfter(a: string, f: string)
    requires CleanField(f)
    ensures FieldAt(a + f, |a|, |a| + |f|) && (a + f)[|a|..] == f
    ensures '|' !in f ==> BarFree(a + f, |a|, |a| + |f|)
  {
    forall k | |a| <= k < |a| + |f| ensures (a + f)[k] == f[k - |a|] {
    }
  }

  /** ` | ` appended to `a` is a separator at `|a|`. */
  lemma SeparatorAfter(a: string)
    ensures SeparatorAt(a + " | ", |a|)
  {
  }

  /** Appending to `x` keeps what holds of `x[lo..hi]`. */
  lemma Extend(x: string, y: string, lo: nat, hi: nat)
    requires lo <= hi <= |x|
    ensures (x + y)[lo..hi] == x[lo..hi]
    ensures FieldAt(x, lo, hi) ==> FieldAt(x + y, lo, hi)
    ensures BarFree(x, lo, hi) ==> BarFree(x + y, lo, hi)
    ensures hi == lo + 3 && SeparatorAt(x, lo) ==> SeparatorAt(x + y, lo)
  {
    assert forall k :: lo <= k < hi ==> (x + y)[k] == x[k];
  }

  /** `name | qty` is laid out as a head with its two fields in place. */
  lemma HeadText(name: string, qty: string)
    requires CleanField(name) && CleanField(qty) && '|' !in name && '|' !in qty
    ensures var x := name + " | " + qty; var n := |name|; var q := |qty|;
      && |x| == n + 3 + q && HeadAt(x, n, q) && x[..n] == name && x[n + 3..n + 3 + q] == qty
  {
    var n := |name|;
    var x2 := name + " | ";
    var x3 := x2 + qty;
    FieldWhole(name);
    assert name[0..n] == name;
    Extend(name, " | ", 0, n);
    SeparatorAfter(name);
    Extend(x2, qty, 0, n);
    Extend(x2, qty, n, n + 3);
    FieldAfter(x2, qty);
    assert x3[..n] == x3[0..n];
  }

  /** Appending to a head keeps it and its two fields. */
  lemma HeadExtend(x: string, y: string, n: nat, q: nat)
    requires HeadAt(x, n, q) && n + 3 + q <= |x|
    ensures HeadAt(x + y, n, q)
    ensures (x + y)[..n] == x[..n] && (x + y)[n + 3..n + 3 + q] == x[n + 3..n + 3 + q]
  {
    Extend(x, y, 0, n);
    Extend(x, y, n, n + 3);
    Extend(x, y, n + 3, n + 3 + q);
    assert (x + y)[..n] == (x + y)[0..n] && x[..n] == x[0..n];
  }

  /** The text of a displayable ingredient is laid out with separators around its three fields. */
  lemma DisplayedText(ing: Ingredient)
    requires Displayable(ing)
    ensures var t := IngredientText(ing); var n := |ing.name|; var q := |ing.qty|;
      && DisplayedAt(t, n, q)
      && t[..n] == ing.name && t[n + 3..n + 3 + q] == ing.qty && t[n + 6 + q..] == ing.unit
  {
    var n, q := |ing.name|, |ing.qty|;
    var x3 := ing.name + " | " + ing.qty;
    HeadText(ing.name, ing.qty);
    var x4 := x3 + " | ";
    HeadExtend(x3, " | ", n, q);
    SeparatorAfter(x3);
    var t := x4 + ing.unit;
    assert t == IngredientText(ing);
    HeadExtend(x4, ing.unit, n, q);
    Extend(x4, ing.unit, n + 3 + q, n + 6 + q);
    FieldAfter(x4, ing.unit);
  }

  /** The groups of the separator split are the three fields between the separators. */
  lemma SeparatorGroups(t: string, n: nat, q: nat, ing: Ingredient)
    requires GroupsInRange(t, SeparatorSplit(n, q))
    requires CleanField(ing.name) && CleanField(ing.qty) && CleanField(ing.unit)
    requires t[..n] == ing.name && t[n + 3..n + 3 + q] == ing.qty && t[n + 6 + q..] == ing.unit
    ensures IngredientOf(t, SeparatorSplit(n, q)) == ing
  {
    var m := SeparatorSplit(n, q);
    assert m.nameEnd == n && m.qtyStart == n + 3 && m.rest.qtyEnd == n + 3 + q && m.rest.unitStart == n + 6 + q;
    GroupsAre(t, m, ing);
  }

  /** A split whose groups are three clean fields reads as those fields. */
  lemma GroupsAre(t: string, m: BarSplit, ing: Ingredient)
    requires GroupsInRange(t, m)
    requires CleanField(ing.name) && CleanField(ing.qty) && CleanField(ing.unit)
    requires t[..m.nameEnd] == ing.name && t[m.qtyStart..m.rest.qtyEnd] == ing.qty && t[m.rest.unitStart..] == ing.unit
    ensures IngredientOf(t, m) == ing
  {
    TrimClean(t[..m.nameEnd], ing.name);
    TrimClean(t[m.qtyStart..m.rest.qtyEnd], ing.qty);
    TrimClean(t[m.rest.unitStart..], ing.unit);
    GroupsTrimmed(t, m, ing);
  }

  /** The ingredient of a split whose trimmed groups are the three fields. */
  lemma GroupsTrimmed(t: string, m: BarSplit, ing: Ingredient)
    requires GroupsInRange(t, m)
    requires Trim(t[..m.nameEnd]) == ing.name && Trim(t[m.qtyStart..m.rest.qtyEnd]) == ing.qty
    requires Trim(t[m.rest.unitStart..]) == ing.unit
    ensures IngredientOf(t, m) == ing
  {
  }

  /** A clean field is its own trimmed text. */
  lemma TrimClean(x: string, f: string)
    requires x == f && CleanField(f)
    ensures Trim(x) == f
  {
    TrimOfTrimmed(f);
  }

  /** The groups of the separator split of a displayable ingredient's text are its fields. */
  lemma DisplayedGroups(ing: Ingredient)
    requires Displayable(ing)
    ensures IngShape(IngredientText(ing), SeparatorSplit(|ing.name|, |ing.qty|))
    ensures IngredientOf(IngredientText(ing), SeparatorSplit(|ing.name|, |ing.qty|)) == ing
  {
    DisplayedText(ing);
    SeparatorShape(IngredientText(ing), |ing.name|, |ing.qty|);
    SeparatorGroups(IngredientText(ing), |ing.name|, |ing.qty|, ing);
  }

  /** A displayable ingredient's text has no white space at its ends. */
  lemma DisplayedTrimmed(ing: Ingredient)
    requires Displayable(ing)
    ensures Trim(IngredientText(ing)) == IngredientText(ing)
  {
    DisplayedText(ing);
    TrimOfTrimmed(IngredientText(ing));
  }

  /**
   * Reading back the text a card shows for an ingredient with three clean
   * fields, no `|` in the name or the quantity, gives the ingredient back; a
   * `|` in the unit stays in the unit.
   */
  lemma DisplayRoundTrip(ing: Ingredient)
    requires Displayable(ing)
    ensures Trim(IngredientText(ing)) == IngredientText(ing)
    ensures IngredientFor(IngredientText(ing)) == ing
  {
    DisplayedTrimmed(ing);
    DisplayedText(ing);
    SeparatorFirst(IngredientText(ing), |ing.name|, |ing.qty|);
    IngredientOfFirst(IngredientText(ing), SeparatorSplit(|ing.name|, |ing.qty|));
    DisplayedGroups(ing);
  }

  /**
   * An ingredient with only a name, the shape the fallback produces, shows as
   * its name alone, and that text reads back as the same ingredient.
   */
  lemma NameOnlyRoundTrip(name: string)
    requires CleanField(name) && '|' !in name
    ensures var t := IngredientText(Ingredient(name, "", ""));
      Trim(t) == t && IngredientFor(Trim(t)) == Ingredient(name, "", "")
  {
    TrimOfTrimmed(name);
    NoBarFallback(name);
  }
}
