/**
 * The line-by-line pass of `parseMenu`: every line of the text, with its
 * trailing white space cut off, either opens a category, adds an option to the
 * current category, a dish to the current option, an ingredient to the current
 * dish, or is skipped.
 *
 * `Step` and `Run` say what one line and a sequence of lines do to the parse
 * state; `ParseLines` is the loop of the source, proved to compute `Run`.
 */
module MenuParser {
  import opened Text
  import opened Wrappers
  import opened MenuTypes
  import opened MomentTable
  import opened LinePatterns
  import opened IngredientLines

  /**
   * `categorias`, `usedMoments` and the three pointers `currentCategoria`,
   * `currentOpcion` and `currentPlatillo`. A pointer that is set always refers
   * to the last category, the last option of that category and the last dish of
   * that option, since the source pushes each new object and then points at it;
   * so each pointer is kept as whether it is set.
   */
  datatype ParseState = ParseState(
    categorias: seq<Category>,
    usedMoments: seq<string>,
    hasCategoria: bool,
    hasOpcion: bool,
    hasPlatillo: bool)

  /** The state before the first line: nothing parsed, no pointer set. */
  const Start := ParseState([], [], false, false, false)

  /** `text.split("\n").map((l) => l.trimEnd())` */
  function Lines(text: string): (lines: seq<string>)
    ensures |lines| == |Split(text)|
    ensures forall i :: 0 <= i < |lines| ==>
      && lines[i] <= Split(text)[i]
      && AllSpaces(Split(text)[i][|lines[i]|..])
      && (lines[i] == [] || !IsSpace(lines[i][|lines[i]| - 1]))
  {
    var pieces := Split(text);
    seq(|pieces|, i requires 0 <= i < |pieces| => TrimEnd(pieces[i]))
  }

  /** The pointers refer to objects that exist. */
  predicate PointersOk(st: ParseState) {
    && (st.hasCategoria <==> |st.categorias| > 0)
    && (st.hasOpcion ==> st.hasCategoria && |st.categorias[|st.categorias| - 1].options| > 0)
    && (st.hasPlatillo ==> st.hasOpcion && OpenDish(st.categorias[|st.categorias| - 1]))
  }

  /**
   * `r` differs from `st` only inside the last category's options: the same
   * keys, the same categories with the same names and keys, all but the last
   * one untouched.
   */
  predicate KeepsOutline(st: ParseState, r: ParseState) {
    && r.usedMoments == st.usedMoments && r.hasCategoria == st.hasCategoria
    && |r.categorias| == |st.categorias|
    && (forall i :: 0 <= i < |st.categorias| ==>
         r.categorias[i].name == st.categorias[i].name && r.categorias[i].momentoKey == st.categorias[i].momentoKey)
    && (forall i :: 0 <= i < |st.categorias| - 1 ==> r.categorias[i] == st.categorias[i])
  }

  /** The last option of `c` has a dish. */
  predicate OpenDish(c: Category) {
    |c.options| > 0 && |c.options[|c.options| - 1].dishes| > 0
  }

  // ---------------------------------------------------------------------------
  // The four updates
  // ---------------------------------------------------------------------------

  /** A column-0 line: push a new category with the next moment key, clear the option and dish. */
  function OpenCategory(st: ParseState, name: string): (r: ParseState)
    ensures PointersOk(r) && r.hasCategoria && !r.hasOpcion && !r.hasPlatillo
  {
    var key := GetMomentoKey(name, st.usedMoments);
    ParseState(st.categorias + [Category(name, key, [])], st.usedMoments + [key], true, false, false)
  }

  /** An option line under a category: push the option onto the current category, clear the dish. */
  function AddOption(st: ParseState, op: MenuOption): (r: ParseState)
    requires PointersOk(st) && st.hasCategoria
    ensures PointersOk(r) && r.hasOpcion && !r.hasPlatillo
    ensures KeepsOutline(st, r)
  {
    var n := |st.categorias|;
    var c := st.categorias[n - 1];
    st.(categorias := st.categorias[n - 1 := c.(options := c.options + [op])],
        hasOpcion := true, hasPlatillo := false)
  }

  /** A four-space line under an option: push the dish onto the current option. */
  function AddDish(st: ParseState, dish: Dish): (r: ParseState)
    requires PointersOk(st) && st.hasOpcion
    ensures PointersOk(r) && r.hasPlatillo
    ensures KeepsOutline(st, r)
    ensures var n := |st.categorias|; var c := st.categorias[n - 1]; var c' := r.categorias[n - 1];
      var k := |c.options|; var op := c.options[k - 1];
      && |c'.options| == k && c'.options[..k - 1] == c.options[..k - 1]
      && var op' := c'.options[k - 1];
      && op'.title == op.title && op'.days == op.days
      && op'.dishes == op.dishes + [dish]
  {
    var n := |st.categorias|;
    var c := st.categorias[n - 1];
    var k := |c.options|;
    var op := c.options[k - 1];
    st.(categorias := st.categorias[n - 1 := c.(options := c.options[k - 1 := op.(dishes := op.dishes + [dish])])],
        hasPlatillo := true)
  }

  /** A six-space line under a dish: push the ingredient onto the current dish. */
  function AddIngredient(st: ParseState, ing: Ingredient): (r: ParseState)
    requires PointersOk(st) && st.hasPlatillo
    ensures PointersOk(r) && r.hasPlatillo && r.hasOpcion
    ensures KeepsOutline(st, r)
    ensures var n := |st.categorias|; var c := st.categorias[n - 1]; var c' := r.categorias[n - 1];
      var k := |c.options|; var op := c.options[k - 1]; var j := |op.dishes|;
      && |c'.options| == k && c'.options[..k - 1] == c.options[..k - 1]
      && var op' := c'.options[k - 1];
      && op'.title == op.title && op'.days == op.days
      && |op'.dishes| == j && op'.dishes[..j - 1] == op.dishes[..j - 1]
      && op'.dishes[j - 1].name == op.dishes[j - 1].name
      && op'.dishes[j - 1].ingredients == op.dishes[j - 1].ingredients + [ing]
  {
    var n := |st.categorias|;
    var c := st.categorias[n - 1];
    var k := |c.options|;
    var op := c.options[k - 1];
    var j := |op.dishes|;
    var d := op.dishes[j - 1];
    var op' := op.(dishes := op.dishes[j - 1 := d.(ingredients := d.ingredients + [ing])]);
    st.(categorias := st.categorias[n - 1 := c.(options := c.options[k - 1 := op'])])
  }

  // ---------------------------------------------------------------------------
  // One line, and all of them
  // ---------------------------------------------------------------------------

  /** The body of `for (let line of lines)` for one line (after `trimEnd`). */
  ghost function Step(st: ParseState, line: string): (r: ParseState)
    requires PointersOk(st)
    ensures PointersOk(r)
  {
    var trimmed := Trim(line);
    if trimmed == [] then
      st
    else if StartsSection(line) then
      OpenCategory(st, trimmed)
    else if Indented(line, 2) && st.hasCategoria then
      match ParseOptionLine(line)
      case Some(op) => AddOption(st, op)
      case None => st
    else if Indented(line, 4) && st.hasOpcion then
      AddDish(st, Dish(trimmed, []))
    else if Indented(line, 6) && st.hasPlatillo then
      AddIngredient(st, IngredientFor(trimmed))
    else
      st
  }

  /** The state after the loop, starting in `st`, has seen `lines`. */
  ghost function RunFrom(st: ParseState, lines: seq<string>): (r: ParseState)
    requires PointersOk(st)
    ensures PointersOk(r)
  {
    if lines == [] then st else Step(RunFrom(st, lines[..|lines| - 1]), lines[|lines| - 1])
  }

  /** The state after the loop has seen `lines`. */
  ghost function Run(lines: seq<string>): ParseState {
    RunFrom(Start, lines)
  }

  /** The categories `parseMenu` builds from `text`. */
  ghost function Categories(text: string): seq<Category> {
    Run(Lines(text)).categorias
  }

  // ---------------------------------------------------------------------------
  // The loop
  // ---------------------------------------------------------------------------

  /** The `for (let line of lines)` loop of `parseMenu`. */
  method ParseLines(lines: seq<string>) returns (categorias: seq<Category>)
    ensures categorias == Run(lines).categorias
  {
    categorias := [];
    var usedMoments: seq<string> := [];
    var hasCategoria, hasOpcion, hasPlatillo := false, false, false;
    for i := 0 to |lines|
      invariant ParseState(categorias, usedMoments, hasCategoria, hasOpcion, hasPlatillo) == Run(lines[..i])
    {
      var st := ParseState(categorias, usedMoments, hasCategoria, hasOpcion, hasPlatillo);
      var line := lines[i];
      RunNext(lines, i);
      var trimmedLine := Trim(line);
      if trimmedLine == [] {
        IgnorableStep(st, line);
        continue;
      }
      if StartsSection(line) {
        StepSection(st, line);
        var momentoKey := GetMomentoKey(trimmedLine, usedMoments);
        usedMoments := usedMoments + [momentoKey];
        categorias := categorias + [Category(trimmedLine, momentoKey, [])];
        hasCategoria, hasOpcion, hasPlatillo := true, false, false;
        continue;
      }
      if Indented(line, 2) && hasCategoria {
        StepOption(st, line);
        var optionMatch := ParseOptionLine(line);
        if optionMatch.Some? {
          categorias := AddOption(st, optionMatch.value).categorias;
          hasOpcion, hasPlatillo := true, false;
        }
        continue;
      }
      if Indented(line, 4) && hasOpcion {
        StepDish(st, line);
        categorias := AddDish(st, Dish(trimmedLine, [])).categorias;
        hasPlatillo := true;
        continue;
      }
      if Indented(line, 6) && hasPlatillo {
        StepIngredient(st, line);
        var ing := ParseIngredient(trimmedLine);
        categorias := AddIngredient(st, ing).categorias;
        continue;
      }
      StepOther(st, line);
    }
    assert lines[..|lines|] == lines;
  }

  /** The loop's state after line `i` is one more step from its state before it. */
  lemma RunNext(lines: seq<string>, i: nat)
    requires i < |lines|
    ensures Run(lines[..i + 1]) == Step(Run(lines[..i]), lines[i])
  {
    assert lines[..i + 1][..i] == lines[..i];
  }

  /** The branches of the loop body, one lemma each, in the order the source tests them. */
  lemma StepSection(st: ParseState, line: string)
    requires PointersOk(st) && Trim(line) != [] && StartsSection(line)
    ensures Step(st, line) == OpenCategory(st, Trim(line))
  {
  }

  lemma StepOption(st: ParseState, line: string)
    requires PointersOk(st) && Trim(line) != [] && !StartsSection(line) && Indented(line, 2) && st.hasCategoria
    ensures Step(st, line) == if ParseOptionLine(line).Some? then AddOption(st, ParseOptionLine(line).value) else st
  {
  }

  lemma StepDish(st: ParseState, line: string)
    requires PointersOk(st) && Trim(line) != [] && !StartsSection(line) && !(Indented(line, 2) && st.hasCategoria)
    requires Indented(line, 4) && st.hasOpcion
    ensures Step(st, line) == AddDish(st, Dish(Trim(line), []))
  {
  }

  lemma StepIngredient(st: ParseState, line: string)
    requires PointersOk(st) && Trim(line) != [] && !StartsSection(line) && !(Indented(line, 2) && st.hasCategoria)
    requires !(Indented(line, 4) && st.hasOpcion) && Indented(line, 6) && st.hasPlatillo
    ensures Step(st, line) == AddIngredient(st, IngredientFor(Trim(line)))
  {
  }

  lemma StepOther(st: ParseState, line: string)
    requires PointersOk(st) && Trim(line) != [] && !StartsSection(line) && !(Indented(line, 2) && st.hasCategoria)
    requires !(Indented(line, 4) && st.hasOpcion) && !(Indented(line, 6) && st.hasPlatillo)
    ensures Step(st, line) == st
  {
  }

  // ---------------------------------------------------------------------------
  // What one line does
  // ---------------------------------------------------------------------------

  /** Blank lines, and lines indented by anything but 0, 2, 4 or 6 spaces, change nothing. */
  predicate Ignorable(line: string) {
    Trim(line) == [] || (!StartsSection(line) && !Indented(line, 2) && !Indented(line, 4) && !Indented(line, 6))
  }

  lemma IgnorableStep(st: ParseState, line: string)
    requires PointersOk(st) && Ignorable(line)
    ensures Step(st, line) == st
  {
  }

  /** A line indented by `n` spaces is not blank and opens no section. */
  lemma IndentedNotBlank(line: string, n: nat)
    requires n > 0 && Indented(line, n)
    ensures Trim(line) != [] && !StartsSection(line)
  {
    TrimEmpty(line);
  }

  /** A column-0 line opens a category named by the trimmed line and clears the option and dish. */
  lemma SectionLine(st: ParseState, line: string)
    requires PointersOk(st) && StartsSection(line)
    ensures var r := Step(st, line); var name := Trim(line);
      && |name| > 0 && name[0] == line[0]
      && r.categorias == st.categorias + [Category(name, GetMomentoKey(name, st.usedMoments), [])]
      && r.usedMoments == st.usedMoments + [GetMomentoKey(name, st.usedMoments)]
      && r.hasCategoria && !r.hasOpcion && !r.hasPlatillo
  {
    TrimFirst(line);
  }

  /**
   * A two-space line under a category that matches the option pattern adds the
   * option to the last category and clears the dish; any other two-space line
   * changes nothing.
   */
  lemma OptionLine(st: ParseState, line: string)
    requires PointersOk(st) && Indented(line, 2)
    ensures var r := Step(st, line);
      if st.hasCategoria && ParseOptionLine(line).Some? then
        var n := |st.categorias|;
        && KeepsOutline(st, r) && r.hasOpcion && !r.hasPlatillo
        && r.categorias[n - 1].options == st.categorias[n - 1].options + [ParseOptionLine(line).value]
      else
        r == st
  {
    IndentedNotBlank(line, 2);
  }

  /** A written-out option line `  <title> - <days> días` under a category adds exactly that option. */
  lemma WrittenOptionAdded(st: ParseState, title: string, days: nat)
    requires PointersOk(st) && st.hasCategoria && CleanTitle(title)
    ensures var r := Step(st, OptionText(title, days)); var n := |st.categorias|;
      && KeepsOutline(st, r) && r.hasOpcion && !r.hasPlatillo
      && r.categorias[n - 1].options == st.categorias[n - 1].options + [MenuOption(title, days, [])]
  {
    OptionRoundTrip(title, days);
    OptionLine(st, OptionText(title, days));
  }

  /** A four-space line adds a dish named by the trimmed line to the current option, if there is one. */
  lemma DishLine(st: ParseState, line: string)
    requires PointersOk(st) && Indented(line, 4)
    ensures var r := Step(st, line);
      if st.hasOpcion then
        var n := |st.categorias|;
        var k := |st.categorias[n - 1].options|;
        && KeepsOutline(st, r) && r.hasOpcion && r.hasPlatillo
        && |r.categorias[n - 1].options| == k
        && r.categorias[n - 1].options[..k - 1] == st.categorias[n - 1].options[..k - 1]
        && r.categorias[n - 1].options[k - 1].title == st.categorias[n - 1].options[k - 1].title
        && r.categorias[n - 1].options[k - 1].days == st.categorias[n - 1].options[k - 1].days
        && r.categorias[n - 1].options[k - 1].dishes == st.categorias[n - 1].options[k - 1].dishes + [Dish(Trim(line), [])]
      else
        r == st
  {
    IndentedNotBlank(line, 4);
  }

  /** The card text of an ingredient, written on a six-space line under a dish, adds that ingredient. */
  lemma WrittenIngredientAdded(st: ParseState, ing: Ingredient)
    requires PointersOk(st) && st.hasPlatillo && Displayable(ing)
    ensures Step(st, "      " + IngredientText(ing)) == AddIngredient(st, ing)
  {
    var x := IngredientText(ing);
    var line := "      " + x;
    DisplayedText(ing);
    assert x[0] == ing.name[0];
    assert Indented(line, 6) by {
      assert line[6] == x[0];
    }
    TrimIndented("      ", x);
    DisplayRoundTrip(ing);
    IngredientLine(st, line);
  }

  /** A six-space line adds the ingredient read from the trimmed line to the current dish, if there is one. */
  lemma IngredientLine(st: ParseState, line: string)
    requires PointersOk(st) && Indented(line, 6)
    ensures Step(st, line) == if st.hasPlatillo then AddIngredient(st, IngredientFor(Trim(line))) else st
  {
    IndentedNotBlank(line, 6);
  }

  // ---------------------------------------------------------------------------
  // What a whole parse does
  // ---------------------------------------------------------------------------

  /** Running over two pieces of text is running over the first, then the second. */
  lemma {:induction false} RunFromAppend(st: ParseState, a: seq<string>, b: seq<string>)
    requires PointersOk(st)
    ensures RunFrom(st, a + b) == RunFrom(RunFrom(st, a), b)
    decreases |b|
  {
    if b == [] {
      assert a + b == a;
    } else {
      RunFromAppend(st, a, b[..|b| - 1]);
      assert (a + b)[..|a + b| - 1] == a + b[..|b| - 1];
    }
  }

  /** An ignorable line can be deleted from the text without changing the result. */
  lemma IgnorableRemovable(a: seq<string>, x: string, b: seq<string>)
    requires Ignorable(x)
    ensures Run(a + [x] + b) == Run(a + b)
  {
    RunFromAppend(Start, a + [x], b);
    RunFromAppend(Start, a, b);
    assert (a + [x])[..|a|] == a;
    IgnorableStep(RunFrom(Start, a), x);
  }

  /** The parse state's keys line up with its categories and are valid. */
  ghost predicate Consistent(st: ParseState) {
    && PointersOk(st)
    && |st.categorias| == |st.usedMoments|
    && (forall i :: 0 <= i < |st.categorias| ==> st.categorias[i].momentoKey == st.usedMoments[i])
    && UsedKeysValid(st.usedMoments)
  }

  lemma StepConsistent(st: ParseState, line: string)
    requires Consistent(st)
    ensures Consistent(Step(st, line))
  {
    if Trim(line) != [] && StartsSection(line) {
      StepSection(st, line);
      SectionConsistent(st, Trim(line));
    } else {
      StepOutline(st, line);
      OutlineConsistent(st, Step(st, line));
    }
  }

  /** Opening a category records its key as the next entry of `usedMoments`, keeping both consistent. */
  lemma SectionConsistent(st: ParseState, name: string)
    requires Consistent(st)
    ensures Consistent(OpenCategory(st, name))
  {
    var r := OpenCategory(st, name);
    FreshMomentoKey(name, st.usedMoments);
    assert forall i :: 0 <= i < |st.categorias| ==> r.categorias[i] == st.categorias[i] && r.usedMoments[i] == st.usedMoments[i];
  }

  /** A line that opens no category only changes the inside of the last one. */
  lemma StepOutline(st: ParseState, line: string)
    requires PointersOk(st) && !(Trim(line) != [] && StartsSection(line))
    ensures KeepsOutline(st, Step(st, line))
  {
  }

  /** Changing only the inside of the last category keeps the keys consistent. */
  lemma OutlineConsistent(st: ParseState, r: ParseState)
    requires Consistent(st) && PointersOk(r) && KeepsOutline(st, r)
    ensures Consistent(r)
  {
  }

  lemma {:induction false} RunFromConsistent(st: ParseState, lines: seq<string>)
    requires Consistent(st)
    ensures Consistent(RunFrom(st, lines))
    decreases |lines|
  {
    if lines != [] {
      RunFromConsistent(st, lines[..|lines| - 1]);
      StepConsistent(RunFrom(st, lines[..|lines| - 1]), lines[|lines| - 1]);
    }
  }

  /**
   * Within one parse every category gets its own moment key: a configured key
   * or the unmapped key of its own position, never one an earlier category has.
   */
  lemma KeysDistinct(lines: seq<string>)
    ensures var cats := Run(lines).categorias;
      && (forall i :: 0 <= i < |cats| ==> cats[i].momentoKey in MomentKeys() || cats[i].momentoKey == UnmappedKey(i))
      && (forall i, j :: 0 <= i < j < |cats| ==> cats[i].momentoKey != cats[j].momentoKey)
  {
    RunFromConsistent(Start, lines);
  }

  /** The number of column-0 lines. */
  function SectionCount(lines: seq<string>): nat {
    if lines == [] then 0
    else SectionCount(lines[..|lines| - 1]) + (if StartsSection(lines[|lines| - 1]) then 1 else 0)
  }

  /** One category per column-0 line, and only those. */
  lemma {:induction false} CategoryCount(lines: seq<string>)
    ensures |Run(lines).categorias| == SectionCount(lines)
    decreases |lines|
  {
    if lines != [] {
      var line := lines[|lines| - 1];
      var st := Run(lines[..|lines| - 1]);
      CategoryCount(lines[..|lines| - 1]);
      if StartsSection(line) {
        SectionLine(st, line);
      } else if Trim(line) != [] && Indented(line, 2) && st.hasCategoria {
        OptionLine(st, line);
      }
    }
  }

  /** A line never removes a category and changes none but the last one. */
  lemma StepKeepsEarlier(st: ParseState, line: string)
    requires PointersOk(st)
    ensures var r := Step(st, line);
      && |r.categorias| >= |st.categorias|
      && forall i :: 0 <= i < |st.categorias| - 1 ==> r.categorias[i] == st.categorias[i]
  {
  }

  /** Once a later category is open, the earlier ones are final. */
  lemma {:induction false} RunKeepsEarlier(st: ParseState, lines: seq<string>)
    requires PointersOk(st)
    ensures var r := RunFrom(st, lines);
      && |r.categorias| >= |st.categorias|
      && forall i :: 0 <= i < |st.categorias| - 1 ==> r.categorias[i] == st.categorias[i]
    decreases |lines|
  {
    if lines != [] {
      RunKeepsEarlier(st, lines[..|lines| - 1]);
      StepKeepsEarlier(RunFrom(st, lines[..|lines| - 1]), lines[|lines| - 1]);
    }
  }

  /** A column-0 line closes every category before it: nothing after it changes them. */
  lemma SectionClosesCategories(a: seq<string>, line: string, b: seq<string>)
    requires StartsSection(line)
    ensures var before := Run(a).categorias; var r := Run(a + [line] + b).categorias;
      |r| > |before| && r[..|before|] == before
  {
    var st := Run(a);
    var afterLine := Step(st, line);
    SectionLine(st, line);
    AppendedLine(a, line);
    RunFromAppend(Start, a + [line], b);
    ClosedAfter(afterLine, b);
  }

  /** Running one more line is one more step. */
  lemma AppendedLine(a: seq<string>, line: string)
    ensures Run(a + [line]) == Step(Run(a), line)
  {
    assert (a + [line])[..|a|] == a;
  }

  /** Every category but the open one is final: later lines keep them as they are. */
  lemma ClosedAfter(st: ParseState, b: seq<string>)
    requires PointersOk(st) && |st.categorias| > 0
    ensures var n := |st.categorias| - 1; var r := RunFrom(st, b).categorias;
      |r| >= n + 1 && r[..n] == st.categorias[..n]
  {
    RunKeepsEarlier(st, b);
  }

}
