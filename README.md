# Menus-Organizer: the weekly menu parser, modelled in Dafny

Menus-Organizer turns a plain-text meal plan into a weekly grid: seven days
(Lunes … Domingo) by five moments of the day (desayuno, colación 1, comida,
colación 2, cena). The text is an outline:

- a line starting in column 0 opens a section, which is a category;
- a line indented by two spaces, such as `  Opción A - 3 días`, is an option held for that many days;
- a line indented by four spaces is a dish;
- a line indented by six spaces is an ingredient, written `name | qty | unit`.

Each section is given a moment key from its name. The key comes from the
alias table, with a special rule for the two snack slots, and a section
that fits no slot gets `momento_no_mapeado_<n>`. The options of all
sections with the same key are spread over the days in order and cut to
one week. On screen, dragging one card onto another card of the same
moment swaps the two cells.

The model follows `js/script.js`. The tables `MOMENTOS` and `DIAS` (`js/script.js:1-25`) are the constants `MomentTable.Momentos` and `MomentTable.Dias`, with the same keys, aliases and day names in the same order:

| module (file) | what it holds |
|---|---|
| `Text` (`text.dfy`) | The JavaScript string operations the parser uses: `trim`, `trimEnd`, `toLowerCase` for the letters a label can hold, `split("\n")`, the regex classes `\s` / `\d` / `.`, and decimal numerals. |
| `MomentTable` (`moment_table.dfy`) | The `MOMENTOS` and `DIAS` tables and `getMomentoKey`. |
| `MenuTypes` (`menu_types.dfy`) | Categories, options, dishes and ingredients as values. |
| `LinePatterns` (`line_patterns.dfy`) | The indentation tests, and the option-line pattern with its lazy title and backtracking. |
| `IngredientLines` (`ingredient_lines.dfy`) | The three-field ingredient pattern (name, bar, quantity, bar, unit), in the order a backtracking matcher tries its splits, its fallback, and the card text of an ingredient. |
| `MenuParser` (`menu_parser.dfy`) | The line loop of `parseMenu`. It is a fold over the lines, with a method that implements it. |
| `MenuGrid` (`menu_grid.dfy`) | The second half of `parseMenu`: the null grid, accumulating, padding and slicing, and filling. There is a reference definition of the grid and methods proved equal to it. |
| `MenuBoard` (`menu_board.dfy`) | The page's grid `currentMenuPorDia` as a class, and the drop handler that swaps two cells. |

### Where the model and the code meet

Pure computations are functions.

The loops of `parseMenu` are methods proved equal to reference functions:
- `MenuParser.ParseLines` against `Run`;
- `MenuGrid.AccumulateMoment` against `Accumulated`;
- `MenuGrid.FitWeek`;
- `MenuGrid.NullGrid` and `MenuGrid.FillMoment`;
- `MenuGrid.ParseMenu` against `GridOf(Categories(text))`.

The parser's "current category / option / dish" pointers become three
flags. Each push into the current object becomes an update of the last
element of the category sequence. `PointersOk` is the invariant that says
the flags point at something that exists.

### Behaviour of the code worth spelling out

- **Ingredient fields.** An ingredient line is read with the pattern `^(.+?)\s*\|\s*(.+?)\s*\|\s*(.+)$` (`js/script.js:97`). It is not split on every `|`. The name and the quantity are lazy, so the unit takes everything after the second bar: `a | b | c | d` has unit `c | d`. A line the pattern does not match, such as one with fewer than two bars, becomes an ingredient whose name is the whole trimmed line, with an empty quantity and unit (`js/script.js:104-110`).
- **The snack rule.** The rule counts the keys in use that start with `colacion` (`js/script.js:35`). When a snack label arrives and that count is exactly one, the key is `colacion2`. When the count is zero, the first snack row, `colacion1`, is free and is taken. With both snack keys in use, neither row is free and the label gets `momento_no_mapeado_<n>`. Only `colacion1` and `colacion2` start with `colacion`, and `colacion2` is only handed out after `colacion1` (`MomentTable.UsedKeysValid`). So the rule never repeats a key (`MomentTable.FreshMomentoKey`).
- **Days in a drop.** The drop handler compares the drag day with the card's day and then indexes the grid with the drag day (`js/script.js:224-232`). The model keeps that behaviour:
  - the target card always belongs to a configured moment and a day of the week;
  - a drag day missing from the grid makes the handler stop with an error before it writes anything (`Failed`).

## Model

| member | source | states |
|---|---|---|
| `Text.IsSpace` | js/script.js:59 | Defines the regex class `\s`, which is also what `trim` removes: the ECMAScript white-space and line-terminator characters. |
| `Text.IsLineTerminator` | js/script.js:74 | Defines the characters the regex `.` does not match: line feed, carriage return, U+2028 and U+2029. |
| `Text.TrimStart` | js/script.js:48-56 | The result is a suffix of the input. Only white space was removed, and the result does not start with white space. |
| `Text.TrimEnd` | js/script.js:48 | The result is a prefix of the line. Only white space was removed, and the result does not end with white space. |
| `Text.Trim` | js/script.js:56 | `trim` never lengthens a string and leaves no white space at either end of a non-empty result. `Text.TrimSlice` states which slice it returns. |
| `Text.TrimSlice` | js/script.js:56 | `trim` returns a contiguous slice of the line with white space only on either side and non-space ends. |
| `Text.TrimOfTrimmed` | js/script.js:56 | A string with non-space ends is its own `trim`. |
| `Text.TrimEmpty` | js/script.js:57 | The trimmed line is empty exactly when the line is all white space. These are the lines `if (!trimmedLine) continue` skips. |
| `Text.TrimFirst` | js/script.js:59-63 | A column-0 line keeps its first character under `trim`. |
| `Text.TrimIndented` | js/script.js:96-97 | The indentation in front of a non-space character does not change the trimmed line the ingredient pattern sees. |
| `Text.LowerChar` | js/script.js:30 | `toLowerCase` on a character: an ASCII or Latin-1 capital becomes the small letter 32 code points above it, the Kelvin sign becomes `k`, and every other character is unchanged. The result is never a capital, and it is white space exactly when the character was. |
| `Text.Lower` | js/script.js:30 | `toLowerCase` keeps the length, lower-cases each character in place, and leaves no capital in the string. |
| `Text.LowerOfLower` | js/script.js:30 | A string with no capital is its own lower-case form. |
| `Text.SpaceRunLower` | js/script.js:30 | Lower-casing does not change the length of any white-space run. |
| `Text.TrimEndLower` | js/script.js:30 | `trimEnd` cuts as much from the lower-case form of a string as from the string. |
| `Text.TrimLowerCommute` | js/script.js:30 | `trim().toLowerCase()` equals `toLowerCase().trim()`. |
| `Text.TrimLower` | js/script.js:30 | The normalised section name `trim().toLowerCase()` needs no further trimming. |
| `Text.LowerIdempotent` | js/script.js:30 | Lower-casing twice is lower-casing once. |
| `Text.Split` | js/script.js:48 | `split("\n")` gives at least one piece. No piece holds a newline, and joining the pieces with newlines restores the text. |
| `Text.SplitAfterLine` | js/script.js:48 | Splitting a first line plus the rest gives that line, then the split of the rest. |
| `Text.SplitSingle` | js/script.js:48 | Text without a newline splits into itself. |
| `Text.SplitJoin` | js/script.js:48 | Splitting the newline-join of newline-free lines gives those lines back. |
| `Text.SpaceRun` | js/script.js:74 | The run of white space from an index is maximal: it contains only white space and the character after it is not white space. |
| `Text.DigitRun` | js/script.js:74 | The run of digits from an index is maximal, so the greedy `(\d+)` takes exactly that run. |
| `Text.LineRun` | js/script.js:97 | The run from an index that the regex `.` can cover ends at a line terminator or at the end of the text. |
| `Text.SpaceRunEnd` | js/script.js:74 | A white-space stretch that is followed by a non-space character is the whole run. |
| `Text.SpaceRunBound` | js/script.js:74 | A stretch is all white space exactly when it lies within the run. |
| `Text.DigitRunEnd` | js/script.js:74 | A digit stretch followed by a non-digit is the whole digit run. |
| `Text.LineRunBound` | js/script.js:97 | A stretch has no line terminator exactly when it lies within the `.` run. |
| `Text.DigitsValue` | js/script.js:78 | Defines `parseInt(s, 10)` on a digit string, most significant digit first. `Text.NatToString` states that it inverts the decimal numeral. |
| `Text.DigitChar` | js/script.js:78 | A digit character names the digit it encodes. |
| `Text.NatToString` | js/script.js:44 | The decimal numeral of `n` (template interpolation of a count). It is non-empty, has no leading zero, and `parseInt` of it gives back `n`. |
| `Text.NatToStringInjective` | js/script.js:44 | Different counts give different numerals. |
| `MomentTable.MomentKeys` | js/script.js:1-15 | Defines the set of keys of the `MOMENTOS` rows: `desayuno`, `colacion1`, `comida`, `colacion2` and `cena`. |
| `MomentTable.UnmappedKey` | js/script.js:44 | Defines the key `momento_no_mapeado_<n>`. The lemmas below state that it is no configured key and differs for different `n`. |
| `MomentTable.MatchesAlias` | js/script.js:32 | Defines the row test `momento.aliases.some((alias) => name.startsWith(alias))`: some alias of the row is a prefix of the name. |
| `MomentTable.CountColacion` | js/script.js:35 | The number of keys in use that start with `colacion`, never more than the number of keys in use. |
| `MomentTable.UnmappedNotConfigured` | js/script.js:44 | A `momento_no_mapeado_<n>` key is never a configured moment key, and it does not start with `colacion`. |
| `MomentTable.SnackRows` | js/script.js:1-15 | Exactly the two snack rows have keys starting with `colacion`, and they share their alias list. |
| `MomentTable.UnmappedKeyInjective` | js/script.js:44 | Unmapped keys for different counts differ. |
| `MomentTable.ScanMomentos` | js/script.js:31-43 | The moment loop from row `i` returns a configured key whose row's alias prefixes the name. It falls back to the unmapped key only when every matching row's key is in use. It repeats a key only through the snack rule. |
| `MomentTable.GetMomentoKey` | js/script.js:29-45 | On the normalised name, the key is either a configured key whose alias is a prefix, or `momento_no_mapeado_<count>` when every matching moment is already used. A key in use is returned only by the snack rule (exactly one `colacion` key in use), and `colacion2` otherwise follows `colacion1`. |
| `MomentTable.AliasHead` | js/script.js:1-15 | Every alias has a three-letter head from its row's set. |
| `MomentTable.AliasFamilies` | js/script.js:1-15 | Two different rows can both match a name only when they are the two snack rows. |
| `MomentTable.SnackDisambiguation` | js/script.js:33-38 | A snack section seen while exactly one `colacion` key is in use gets `colacion2`. |
| `MomentTable.ScanFirstFree` | js/script.js:39-42 | Outside the snack rule, the loop returns the key of the first matching row whose key is still free. |
| `MomentTable.FirstFreeMoment` | js/script.js:39-44 | Outside the snack rule, `getMomentoKey` returns the first matching moment not yet used, or the unmapped key otherwise. |
| `MomentTable.RepeatedMomentUnmapped` | js/script.js:39-44 | A second breakfast, lunch or dinner section becomes `momento_no_mapeado_<n>`. |
| `MomentTable.CountColacionTwo` | js/script.js:35 | Two snack keys in use make the filter count at least two. |
| `MomentTable.CountColacionOne` | js/script.js:35 | One snack key in use makes the filter count at least one. |
| `MomentTable.CountColacionWitness` | js/script.js:35 | A positive filter count has a snack key in use behind it. |
| `MomentTable.ThirdSnackUnmapped` | js/script.js:33-44 | A third snack section, after `colacion1` and `colacion2`, becomes unmapped. |
| `MomentTable.SnackKeyInUse` | js/script.js:35 | Among keys handed out by `getMomentoKey`, those starting with `colacion` are the two snack keys. |
| `MomentTable.FreshKeyNotUsed` | js/script.js:29-45 | Given the keys handed out so far, the next key is not one of them. |
| `MomentTable.FreshMomentoKey` | js/script.js:60-61 | Pushing the new key keeps `usedMoments` well formed: entry `i` is configured or `momento_no_mapeado_<i>`, the entries are pairwise distinct, and `colacion2` only follows `colacion1`. |
| `MomentTable.NormalizedLabel` | js/script.js:30 | Passing an already normalised name gives the same key. |
| `MomentTable.CaseInsensitive` | js/script.js:30 | Labels that differ only in the case of their letters get the same key. |
| `LinePatterns.StartsSection` | js/script.js:59 | Defines the test `/^[^\s]/`: the line is non-empty and its first character is not white space. |
| `LinePatterns.Indented` | js/script.js:73-96 | Defines the tests `/^  [^\s]/`, `/^    [^\s]/` and `/^      [^\s]/`: exactly `n` spaces, then a character that is not white space. |
| `LinePatterns.IndentationExclusive` | js/script.js:73-96 | A line matches at most one of the indentation tests `^  [^\s]`, `^    [^\s]` and `^      [^\s]`. |
| `LinePatterns.IsDayUnit` | js/script.js:74 | Defines `d[ií]as?$` under the `i` flag: `d`, `i` or `í`, `a`, and an optional `s`, each in either case, and nothing after. |
| `LinePatterns.DaysSuffix` | js/script.js:74 | When the suffix `\s*-\s*(\d+)\s*d[ií]as?$` is found from an index, the line has that shape there. |
| `LinePatterns.DaysSuffixComplete` | js/script.js:74 | Whenever the suffix shape is present from an index, it is found, with exactly those pieces. |
| `LinePatterns.CandidateFound` | js/script.js:74 | Any split with the suffix shape is the one made of whole white-space and digit runs. |
| `LinePatterns.LeadingRunsWhole` | js/script.js:74 | In a suffix match, the white space around the dash is taken whole. |
| `LinePatterns.TrailingRunsWhole` | js/script.js:74 | In a suffix match, the digits and the white space after them are taken whole. |
| `LinePatterns.DaysSuffixOneDash` | js/script.js:74 | The matched suffix contains only one `-`, its dash. |
| `LinePatterns.FirstFrom` | js/script.js:74 | A lazy group tries its ends in order: the result is the first end from `k` that works. |
| `LinePatterns.FirstFromLeast` | js/script.js:74 | The lazy search stops no later than any end that works. |
| `LinePatterns.TitleEnd` | js/script.js:74 | The lazy `(.+?)` title ends at a nonempty, `.`-only title after which the suffix matches. |
| `LinePatterns.TitleEndLeast` | js/script.js:74 | Any split with the option shape ends at or after the lazy title end. |
| `LinePatterns.OptionShape` | js/script.js:74 | Defines a split of a line by the pattern `^  (.+?)\s*-\s*(\d+)\s*d[ií]as?$`: two spaces, a non-empty title of `.` characters ending at `k`, then the suffix pieces `m`. |
| `LinePatterns.LeastOptionSplit` | js/script.js:74 | Defines the split the lazy `(.+?)` takes: a split with the option shape whose title ends no later than that of any other. |
| `LinePatterns.ParseOptionLine` | js/script.js:74-80 | On a match, the option is built from the least split, that is, the one the lazy title takes: trimmed title, parsed day count, no dishes. No match means no split has the shape. |
| `LinePatterns.OptionOf` | js/script.js:76-80 | Defines the option built from a split: `match[1].trim()` as the title, `parseInt(match[2], 10)` as the days, no dishes. |
| `LinePatterns.OptionLineFound` | js/script.js:74 | The lazy title end with the found suffix is the least split. |
| `LinePatterns.LayoutShape` | js/script.js:74 | A line of the written option layout has the option shape at the title end. |
| `LinePatterns.LayoutLeast` | js/script.js:74 | Its title end is the least one, even when the title itself holds `-`. |
| `LinePatterns.LeastSplitUnique` | js/script.js:74 | The least split is unique. |
| `LinePatterns.LayoutOption` | js/script.js:76-80 | The option read from that layout has the written title and day count. |
| `LinePatterns.LayoutParse` | js/script.js:74-80 | An option line with that layout parses to the written option. |
| `LinePatterns.OptionTextPieces` | js/script.js:74 | The written line `  <title> - <days> días` is made of its pieces at the expected offsets. |
| `LinePatterns.SliceFacts` | js/script.js:74 | Facts about a slice carry over to the positions of the line. |
| `LinePatterns.OptionTextLayout` | js/script.js:74 | The written option line has the option layout. |
| `LinePatterns.OptionRoundTrip` | js/script.js:73-80 | A title without white space at its ends or line terminators (it may hold `-` and digits) and a day count written as `  <title> - <days> días` pass the two-space test and read back as that option. |
| `LinePatterns.OptionTextIndented` | js/script.js:73 | The written option line passes the two-space test. |
| `LinePatterns.OptionTextParses` | js/script.js:74-80 | The written option line reads back as that option. |
| `IngredientLines.IngShape` | js/script.js:97 | Defines a split of a trimmed line by `^(.+?)\s*\|\s*(.+?)\s*\|\s*(.+)$`: a non-empty name, white space, a bar, white space, a non-empty quantity, white space, a bar, white space and a non-empty unit, with no line terminator in the groups. |
| `IngredientLines.Before` | js/script.js:97 | Defines the order a backtracking matcher tries splits in: shorter names first, then longer white space before the quantity, then shorter quantities, then longer white space before the unit. |
| `IngredientLines.FirstSplit` | js/script.js:97 | Defines the split the matcher returns: one with the shape that comes no later in that order than any other. |
| `IngredientLines.UnitScan` | js/script.js:97 | The greedy `\s*` before `(.+)$` takes the largest unit start that works, and none exists when it fails. |
| `IngredientLines.UnitPartBar` | js/script.js:97 | The bar before the unit lies right after the white space that ends the quantity. |
| `IngredientLines.TailScan` | js/script.js:97 | The lazy quantity with its unit part is the first tail in the matcher's order. None means no tail fits. |
| `IngredientLines.TailFound` | js/script.js:97 | The first working quantity end, with the largest unit start, is the first tail. |
| `IngredientLines.TailAt` | js/script.js:97 | Such a quantity end and unit start form a tail. |
| `IngredientLines.TailSkipped` | js/script.js:97 | A quantity end the matcher rejects is shorter than every working one. |
| `IngredientLines.QtyScan` | js/script.js:97 | For a fixed name end, the matcher finds the first split with that name end, and none exists when it fails. |
| `IngredientLines.MatchIngredient` | js/script.js:97 | `trimmedLine.match(...)` returns the first split in backtracking order, the lazy name first. No match means no split has the ingredient shape. |
| `IngredientLines.IngredientOf` | js/script.js:99-103 | Defines the ingredient built from a split: the three groups, each trimmed. |
| `IngredientLines.FirstSplitUnique` | js/script.js:97 | The first split is unique. |
| `IngredientLines.IngredientOfFirst` | js/script.js:99-103 | The ingredient read from a line is the trimmed groups of its first split. |
| `IngredientLines.IngredientFor` | js/script.js:97-110 | Defines the ingredient a six-space line gives: the trimmed groups of the first split in the matcher's order, or the whole trimmed line as the name. `ParseIngredient` computes it. |
| `IngredientLines.ParseIngredient` | js/script.js:97-110 | A six-space line gives the three trimmed groups of the match, or the whole line as the name with an empty quantity and unit. |
| `IngredientLines.NoBarFallback` | js/script.js:104-110 | A line without a bar is an ingredient with only a name. |
| `IngredientLines.OneBarFallback` | js/script.js:104-110 | A line with a single bar is also an ingredient with only a name. |
| `IngredientLines.IngredientText` | js/script.js:262-265 | The card text starts with the name, and it is the name alone exactly when the quantity and the unit are both empty. |
| `IngredientLines.BarPastField` | js/script.js:97 | A bar reached over white space from inside a bar-free field lies past that field. |
| `IngredientLines.SeparatorShape` | js/script.js:97 | Card text split at its two space-bar-space separators has the ingredient shape. |
| `IngredientLines.SeparatorFirst` | js/script.js:97 | That split is the one the matcher finds first. |
| `IngredientLines.FieldWhole` | js/script.js:263 | A clean field on its own is a field of itself. |
| `IngredientLines.FieldAfter` | js/script.js:264-265 | A clean field appended after any text is a field at that offset. |
| `IngredientLines.SeparatorAfter` | js/script.js:264-265 | An appended space-bar-space is a separator at that offset. |
| `IngredientLines.Extend` | js/script.js:264-265 | Appending text keeps earlier fields and separators in place. |
| `IngredientLines.HeadText` | js/script.js:263-264 | The name with the quantity appended after a separator has both fields in place. |
| `IngredientLines.HeadExtend` | js/script.js:264-265 | Appending the unit keeps the name, the separator and the quantity in place. |
| `IngredientLines.DisplayedText` | js/script.js:262-265 | The card text of a displayable ingredient is its name, a space-bar-space separator, its quantity, another separator and its unit, at those offsets. |
| `IngredientLines.SeparatorGroups` | js/script.js:99-103 | The trimmed groups at the separators are the fields. |
| `IngredientLines.GroupsAre` | js/script.js:99-103 | A split whose three groups are clean fields reads as those fields. |
| `IngredientLines.GroupsTrimmed` | js/script.js:99-103 | Trimmed groups equal to the fields give the ingredient. |
| `IngredientLines.TrimClean` | js/script.js:100-102 | A clean field is its own trim. |
| `IngredientLines.DisplayedGroups` | js/script.js:97-103 | The card text, split at its separators, holds the ingredient's fields. |
| `IngredientLines.DisplayedTrimmed` | js/script.js:262-265 | Card text needs no trimming. |
| `IngredientLines.NameOnlyRoundTrip` | js/script.js:104-110 | An ingredient with only a name (no white space at its ends, no line terminator, no bar) shows as its name alone, and that text reads back as the same ingredient through the fallback. |
| `IngredientLines.DisplayRoundTrip` | js/script.js:262-265 | The card text (name, quantity and unit joined by space-bar-space) of an ingredient with clean fields reads back, as an ingredient line, as the same ingredient. |
| `MenuParser.Lines` | js/script.js:48 | One line per newline-separated piece. Each is a prefix of its piece with only trailing white space removed. |
| `MenuParser.OpenCategory` | js/script.js:59-70 | A column-0 line opens a category and clears the current option and dish. |
| `MenuParser.AddOption` | js/script.js:76-82 | A pushed option becomes the current option, with no current dish. Only the last category changes. |
| `MenuParser.AddDish` | js/script.js:87-93 | A pushed dish becomes the current dish. Only the last category changes. |
| `MenuParser.AddIngredient` | js/script.js:98-110 | The ingredient is appended to the last dish of the last option. All else keeps its place, title, days and name. |
| `MenuParser.Run` | js/script.js:55-113 | Defines the state after the `for (let line of lines)` loop: one `Step` per line from the empty start. `MenuParser.ParseLines` computes it. |
| `MenuParser.Categories` | js/script.js:47-113 | Defines `categorias` as `parseMenu` leaves it: the fold over the lines of the text. |
| `MenuParser.Step` | js/script.js:55-112 | One line keeps the current category, option and dish pointing at existing objects. |
| `MenuParser.RunFrom` | js/script.js:55-113 | So does any sequence of lines. |
| `MenuParser.ParseLines` | js/script.js:55-113 | The `for (let line of lines)` loop builds exactly the categories of the line-by-line fold. |
| `MenuParser.RunNext` | js/script.js:55 | Each loop iteration is one more step of the fold. |
| `MenuParser.StepSection` | js/script.js:59-70 | A non-blank column-0 line opens a category. |
| `MenuParser.StepOption` | js/script.js:73-85 | A two-space line under a category adds the parsed option, or nothing when the pattern fails. |
| `MenuParser.StepDish` | js/script.js:87-94 | A four-space line under an option adds a dish. |
| `MenuParser.StepIngredient` | js/script.js:96-112 | A six-space line under a dish adds the ingredient read from it. |
| `MenuParser.StepOther` | js/script.js:55-113 | A line none of the tests admits changes nothing. |
| `MenuParser.IgnorableStep` | js/script.js:57-112 | A blank line, or one matching no indentation test, changes nothing. |
| `MenuParser.IndentedNotBlank` | js/script.js:57-73 | An indented line with content is not blank and not a section. |
| `MenuParser.SectionLine` | js/script.js:59-70 | A column-0 line appends the category (trimmed name, the key `getMomentoKey` gives, no options), records the key and clears the pointers. |
| `MenuParser.OptionLine` | js/script.js:73-85 | A two-space line under a category whose pattern matches appends the parsed option to the last category and makes it current. Otherwise the line changes nothing. |
| `MenuParser.WrittenOptionAdded` | js/script.js:73-83 | A written option line under a category appends exactly that option. |
| `MenuParser.DishLine` | js/script.js:87-94 | A four-space line under an option appends a dish with the trimmed name to the last option. Otherwise the line changes nothing. |
| `MenuParser.IngredientLine` | js/script.js:96-112 | A six-space line under a dish appends the ingredient read from the trimmed line. Otherwise the line changes nothing. |
| `MenuParser.WrittenIngredientAdded` | js/script.js:96-103 | The card text of an ingredient on a six-space line under a dish appends exactly that ingredient. |
| `MenuParser.RunFromAppend` | js/script.js:55 | Parsing two chunks of lines is parsing the first, then the second. |
| `MenuParser.IgnorableRemovable` | js/script.js:57-112 | Inserting a blank or unrecognised line anywhere does not change the result. |
| `MenuParser.StepConsistent` | js/script.js:59-67 | Every category's key is the matching entry of `usedMoments`, and those keys stay well formed. |
| `MenuParser.SectionConsistent` | js/script.js:60-67 | Opening a category records its fresh key as the next entry of `usedMoments`. |
| `MenuParser.StepOutline` | js/script.js:73-112 | A line that opens no category changes only the inside of the last one. |
| `MenuParser.OutlineConsistent` | js/script.js:73-112 | Such a change keeps the keys consistent. |
| `MenuParser.RunFromConsistent` | js/script.js:55-113 | The same consistency holds after any sequence of lines. |
| `MenuParser.KeysDistinct` | js/script.js:60-67 | The parsed categories have pairwise distinct moment keys. Each key is configured or `momento_no_mapeado_<its index>`. |
| `MenuParser.CategoryCount` | js/script.js:59-67 | There is one category per column-0 line. |
| `MenuParser.StepKeepsEarlier` | js/script.js:62-67 | A line never removes categories and never touches any but the last one. |
| `MenuParser.RunKeepsEarlier` | js/script.js:55-113 | The same holds for any sequence of lines. |
| `MenuParser.SectionClosesCategories` | js/script.js:62-69 | After a new section, the categories before it are final. |
| `MenuParser.AppendedLine` | js/script.js:55 | Parsing one more line is one more step. |
| `MenuParser.ClosedAfter` | js/script.js:62-69 | Every category but the open one is final: later lines keep it. |
| `MenuGrid.Complete` | js/script.js:115-121 | Defines the shape `menuPorDia` is given: exactly the days `0..6`, each with exactly the configured moment keys. |
| `MenuGrid.Repeat` | js/script.js:130-132 | An option pushed `days` times gives `days` cells holding it. |
| `MenuGrid.Expand` | js/script.js:129-133 | Defines the cells one category's options push: each option repeated `days` times, in order. |
| `MenuGrid.TotalDays` | js/script.js:129-133 | Defines the sum of the day counts of a category's options. |
| `MenuGrid.Accumulated` | js/script.js:124-135 | Defines `opcionesDelMomentoAcumuladas` before padding: the expansions of the categories with that moment key, in category order. |
| `MenuGrid.CellOf` | js/script.js:136-145 | Defines the cell of a moment on a day: the accumulated cell of that index, or `null` past the end. |
| `MenuGrid.DayOf` | js/script.js:143-145 | Defines the row of a day: each configured moment key with its cell. |
| `MenuGrid.GridOf` | js/script.js:115-146 | Defines the reference grid: the days of the week, each with its row. `ParseMenu` computes it. |
| `MenuGrid.GridComplete` | js/script.js:115-121 | The grid has exactly the days 0..6 and, on each, exactly the configured moment keys. |
| `MenuGrid.ExpandLength` | js/script.js:129-133 | A category's options fill as many cells as their days add up to. |
| `MenuGrid.ExpandPlacement` | js/script.js:129-133 | Option `j` occupies the cells from the sum of the earlier days for its own days. |
| `MenuGrid.ExpandMembers` | js/script.js:129-133 | Every expanded cell holds one of the options, and an option with at least one day. |
| `MenuGrid.ExpandAppend` | js/script.js:129-133 | Expanding two runs of options is expanding each in turn. |
| `MenuGrid.ZeroDaysNoCell` | js/script.js:130 | An option with zero days takes no cell. |
| `MenuGrid.AccumulatedAppend` | js/script.js:125-135 | Accumulating two runs of categories is accumulating each in turn. |
| `MenuGrid.UnmappedNoCell` | js/script.js:123-146 | A category with an unmapped key leaves the whole grid unchanged. |
| `MenuGrid.SkippedCategory` | js/script.js:126 | A category with another key does not change a moment's row. |
| `MenuGrid.SameRows` | js/script.js:143-145 | Equal accumulated rows for all moments give equal grids. |
| `MenuGrid.SameDay` | js/script.js:143-145 | Equal accumulated rows give equal cells on a day. |
| `MenuGrid.AccumulatedMembers` | js/script.js:125-135 | Every accumulated cell is a non-null option with at least one day, from a category with that moment key. |
| `MenuGrid.CellEmptyIff` | js/script.js:136-145 | A cell is `null` exactly when its day lies past the moment's accumulated options. |
| `MenuGrid.OwnRow` | js/script.js:125-135 | A category whose key no other category has accumulates exactly its own expanded options. |
| `MenuGrid.NoRow` | js/script.js:125-126 | A moment no category has accumulates nothing. |
| `MenuGrid.ParsedRow` | js/script.js:47-148 | For a parsed category with a configured key, the moment's cells on the days are its options repeated by their day counts, then `null`. |
| `MenuGrid.AccumulateMoment` | js/script.js:124-135 | The filter plus nested loops push exactly the accumulated cells for the moment. |
| `MenuGrid.FitWeek` | js/script.js:136-142 | Padding with `null` and slicing to the week gives seven cells: the accumulated ones, then `null`. |
| `MenuGrid.NullGrid` | js/script.js:115-121 | The initial grid is complete with every cell `null`. |
| `MenuGrid.FillMoment` | js/script.js:123-146 | One pass of the moment loop fills that moment's row with its cells and keeps the earlier rows. |
| `MenuGrid.FillCell` | js/script.js:143-145 | Writing the moment's cell for day `d` extends the filled part of the grid by that cell and changes no other moment. |
| `MenuGrid.RowFilled` | js/script.js:143-146 | A moment filled on all seven days is done. |
| `MenuGrid.ParseMenu` | js/script.js:47-148 | `parseMenu(text)` returns the reference grid of the parsed categories, and it is complete. |
| `MenuGrid.MomentKeysDistinct` | js/script.js:1-15 | The configured moment keys are pairwise distinct. |
| `MenuGrid.FilledGrid` | js/script.js:143-146 | After all moments are filled, the grid is the reference grid. |
| `MenuBoard.SwapCells` | js/script.js:229-232 | The two cells of the moment on the two days trade places. No other cell changes, and no day or moment appears or disappears. |
| `MenuBoard.SwapComplete` | js/script.js:229-232 | A swap keeps the grid complete. |
| `MenuBoard.SwapTwice` | js/script.js:229-232 | Swapping the same two cells twice restores the grid. |
| `MenuBoard.SwapSymmetric` | js/script.js:229-232 | It does not matter which of the two cards is dragged onto the other. |
| `MenuBoard.WeeklyGrid.constructor` | js/script.js:151 | `renderMenuTable` stores the grid it is given. A complete grid, such as the one `parseMenu` returns, makes the board valid. |
| `MenuBoard.WeeklyGrid.Drop` | js/script.js:217-233 | A drop carrying the same moment and another day swaps that moment's cells on the two days; nothing else changes and the grid stays complete. A drop without data, from another moment or from the same day changes nothing. A drag day the grid lacks stops the handler before it writes anything. |

## Left out

- Rendering. The DOM, the styles, the PDF export, the file and button handlers and the drag-over highlighting are all page I/O. After a swap, the grid is drawn again from the new cells; that redraw is not modelled.
- `DIAS` labels. Only the number of days matters to the model, and the labels are kept as data.
- `MOMENTOS` labels. These are not used by the parsing logic.
- Regular expressions. They are modelled pattern by pattern, as the matcher tries them. There is no general regex engine.
- Case folding. `toLowerCase` is modelled for the ASCII and Latin-1 capitals and the Kelvin sign; the `i` flag of the day unit for ASCII letters and `í`/`Í`. Other capitals, such as `Ā`, are kept as they are. No other character lower-cases to a letter of an alias or of the day unit, so the key `getMomentoKey` returns and the day-unit test are the same as with full case folding. The one near case, U+0130, becomes `i` followed by a combining dot, which no alias continues with.
- Strings are sequences of Unicode characters. JavaScript's UTF-16 code units differ only outside the Basic Multilingual Plane.
- `parseInt(match[2], 10)` is modelled on digit strings only, which is all the pattern lets through. Its overflow into floating point is not modelled.
- `JSON.parse` of the drag data and non-integer `data.dia`. The drag data is modelled as an optional `{momento, dia}` record with an integer day. This is what the page's own `dragstart` writes.
- Object identity. The source's options and dishes are shared objects: the same option object fills several cells, and a dish is pushed through `currentPlatillo`. The model uses values. Mutations after the push are modelled as updates of the last element, which matches how the code reaches them.
- `MenuBoard.WeeklyGrid.Drop` requires the target cell to belong to a configured moment and a day of the week. The page attaches the handler only to such cards. It does not require the target card to hold an option.
- `LinePatterns.OptionRoundTrip` is stated for titles that are non-empty, have no white space at either end and hold no line terminator. A title with white space at its ends reads back trimmed, and one with a line terminator does not fit on one line.
- `IngredientLines.DisplayRoundTrip` is stated for ingredients with three non-empty clean fields and no `|` in the name or quantity. An ingredient with exactly one of quantity and unit empty prints one separator; with no other bar in the text, it reads back as a name-only ingredient whose name is the whole text (`IngredientLines.OneBarFallback`). An ingredient with both empty reads back as itself (`IngredientLines.NameOnlyRoundTrip`).
