/**
 * The second half of `parseMenu`: the 7-day grid. Each configured moment gets a
 * row made of the options of its categories, each repeated for its number of
 * days, padded with empty cells and cut to the seven days of the week.
 */
module MenuGrid {
  import opened Wrappers
  import opened MenuTypes
  import opened MomentTable
  import opened MenuParser

  /** A grid cell: an option, or `null`. */
  type Cell = Option<MenuOption>

  /** `menuPorDia`: day index to moment key to cell. */
  type Grid = map<int, map<string, Cell>>

  /** The grid has the days 0..6 and, on each, exactly the configured moment keys. */
  ghost predicate Complete(g: Grid) {
    && (forall d :: d in g <==> 0 <= d < |Dias|)
    && (forall d :: 0 <= d < |Dias| ==> g[d].Keys == MomentKeys())
  }

  // ---------------------------------------------------------------------------
  // What each row holds
  // ---------------------------------------------------------------------------

  /** `for (let i = 0; i < op.days; i++) acc.push(op)` */
  function Repeat(op: MenuOption, n: nat): (r: seq<Cell>)
    ensures |r| == n && forall i :: 0 <= i < n ==> r[i] == Some(op)
  {
    if n == 0 then [] else Repeat(op, n - 1) + [Some(op)]
  }

  /** The options of one category, each repeated for its number of days. */
  function Expand(ops: seq<MenuOption>): seq<Cell> {
    if ops == [] then [] else Expand(ops[..|ops| - 1]) + Repeat(ops[|ops| - 1], ops[|ops| - 1].days)
  }

  /** `opcionesDelMomentoAcumuladas` before padding: the expansions of the categories with key `key`, in order. */
  function Accumulated(cats: seq<Category>, key: string): seq<Cell> {
    if cats == [] then []
    else
      var c := cats[|cats| - 1];
      Accumulated(cats[..|cats| - 1], key) + (if c.momentoKey == key then Expand(c.options) else [])
  }

  /** The cell of day `d` in the row of `key`: the `d`-th accumulated option, or `null` past the end. */
  function CellOf(cats: seq<Category>, key: string, d: nat): Cell {
    var acc := Accumulated(cats, key);
    if d < |acc| then acc[d] else None
  }

  /** Day `d` of the grid: each configured moment's cell for that day. */
  function DayOf(cats: seq<Category>, d: nat): map<string, Cell> {
    map k | k in MomentKeys() :: CellOf(cats, k, d)
  }

  /** The grid `parseMenu` returns for the categories it read. */
  function GridOf(cats: seq<Category>): Grid {
    map d: nat | d < |Dias| :: DayOf(cats, d)
  }

  /** The sum of the options' days. */
  function TotalDays(ops: seq<MenuOption>): nat {
    if ops == [] then 0 else TotalDays(ops[..|ops| - 1]) + ops[|ops| - 1].days
  }

  // ---------------------------------------------------------------------------
  // The properties of the distribution
  // ---------------------------------------------------------------------------

  /** The grid has exactly the days 0..6 and on each exactly the configured moments. */
  lemma GridComplete(cats: seq<Category>)
    ensures Complete(GridOf(cats))
  {
  }

  /** Each option takes as many consecutive cells as it has days. */
  lemma {:induction false} ExpandLength(ops: seq<MenuOption>)
    ensures |Expand(ops)| == TotalDays(ops)
    decreases |ops|
  {
    if ops != [] {
      ExpandLength(ops[..|ops| - 1]);
    }
  }

  /** Option `j` fills the cells from the days of the options before it on, for its own days. */
  lemma {:induction false} ExpandPlacement(ops: seq<MenuOption>, j: nat, d: nat)
    requires j < |ops| && TotalDays(ops[..j]) <= d < TotalDays(ops[..j]) + ops[j].days
    ensures d < |Expand(ops)| && Expand(ops)[d] == Some(ops[j])
    decreases |ops|
  {
    var n := |ops| - 1;
    ExpandLength(ops[..n]);
    if j < n {
      assert ops[..n][..j] == ops[..j];
      ExpandPlacement(ops[..n], j, d);
    } else {
      assert ops[..n] == ops[..j];
    }
  }

  /** Every filled cell holds one of the options, and one with at least one day. */
  lemma {:induction false} ExpandMembers(ops: seq<MenuOption>, d: nat)
    requires d < |Expand(ops)|
    ensures Expand(ops)[d].Some? && Expand(ops)[d].value in ops && Expand(ops)[d].value.days > 0
    decreases |ops|
  {
    var n := |ops| - 1;
    if d < |Expand(ops[..n])| {
      ExpandMembers(ops[..n], d);
    }
  }

  /** Expanding two lists of options one after the other is expanding their concatenation. */
  lemma {:induction false} ExpandAppend(a: seq<MenuOption>, b: seq<MenuOption>)
    ensures Expand(a + b) == Expand(a) + Expand(b)
    decreases |b|
  {
    if b == [] {
      assert a + b == a;
    } else {
      var n := |b| - 1;
      assert (a + b)[..|a + b| - 1] == a + b[..n];
      ExpandAppend(a, b[..n]);
    }
  }

  /** An option with zero days takes no cell: removing it changes nothing. */
  lemma ZeroDaysNoCell(a: seq<MenuOption>, op: MenuOption, b: seq<MenuOption>)
    requires op.days == 0
    ensures Expand(a + [op] + b) == Expand(a + b)
  {
    ExpandAppend(a + [op], b);
    ExpandAppend(a, [op]);
    ExpandAppend(a, b);
    assert [op][..0] == [];
  }

  /** Accumulating over two lists of categories one after the other. */
  lemma {:induction false} AccumulatedAppend(a: seq<Category>, b: seq<Category>, key: string)
    ensures Accumulated(a + b, key) == Accumulated(a, key) + Accumulated(b, key)
    decreases |b|
  {
    if b == [] {
      assert a + b == a;
    } else {
      var n := |b| - 1;
      assert (a + b)[..|a + b| - 1] == a + b[..n];
      AccumulatedAppend(a, b[..n], key);
    }
  }

  /** A category whose key is not a configured moment contributes to no row. */
  lemma UnmappedNoCell(a: seq<Category>, c: Category, b: seq<Category>)
    requires c.momentoKey !in MomentKeys()
    ensures GridOf(a + [c] + b) == GridOf(a + b)
  {
    forall k | k in MomentKeys() ensures Accumulated(a + [c] + b, k) == Accumulated(a + b, k) {
      SkippedCategory(a, c, b, k);
    }
    SameRows(a + [c] + b, a + b);
  }

  /** A category with another key adds nothing to the row of `key`. */
  lemma SkippedCategory(a: seq<Category>, c: Category, b: seq<Category>, key: string)
    requires c.momentoKey != key
    ensures Accumulated(a + [c] + b, key) == Accumulated(a + b, key)
  {
    AccumulatedAppend(a + [c], b, key);
    AccumulatedAppend(a, [c], key);
    AccumulatedAppend(a, b, key);
    assert [c][..0] == [];
  }

  /** Categories that accumulate the same rows give the same grid. */
  lemma SameRows(c1: seq<Category>, c2: seq<Category>)
    requires forall k :: k in MomentKeys() ==> Accumulated(c1, k) == Accumulated(c2, k)
    ensures GridOf(c1) == GridOf(c2)
  {
    forall d: nat | d < |Dias| ensures DayOf(c1, d) == DayOf(c2, d) {
      SameDay(c1, c2, d);
    }
  }

  /** Categories that accumulate the same rows give the same day. */
  lemma SameDay(c1: seq<Category>, c2: seq<Category>, d: nat)
    requires forall k :: k in MomentKeys() ==> Accumulated(c1, k) == Accumulated(c2, k)
    ensures DayOf(c1, d) == DayOf(c2, d)
  {
    forall k | k in MomentKeys() ensures CellOf(c1, k, d) == CellOf(c2, k, d) {
    }
  }

  /** Every accumulated cell holds an option, with days, of a category with that key. */
  lemma {:induction false} AccumulatedMembers(cats: seq<Category>, key: string, d: nat)
    requires d < |Accumulated(cats, key)|
    ensures var cell := Accumulated(cats, key)[d];
      && cell.Some? && cell.value.days > 0
      && exists i :: 0 <= i < |cats| && cats[i].momentoKey == key && cell.value in cats[i].options
    decreases |cats|
  {
    var n := |cats| - 1;
    if d < |Accumulated(cats[..n], key)| {
      AccumulatedMembers(cats[..n], key, d);
      var i :| 0 <= i < n && cats[..n][i].momentoKey == key && Accumulated(cats, key)[d].value in cats[..n][i].options;
    } else {
      ExpandMembers(cats[n].options, d - |Accumulated(cats[..n], key)|);
    }
  }

  /** A cell is `null` exactly when its day is past the accumulated options of its moment. */
  lemma CellEmptyIff(cats: seq<Category>, key: string, d: nat)
    ensures CellOf(cats, key, d) == None <==> d >= |Accumulated(cats, key)|
  {
    if d < |Accumulated(cats, key)| {
      AccumulatedMembers(cats, key, d);
    }
  }

  /** With distinct keys, the row of a category's key is that category's expansion alone. */
  lemma {:induction false} OwnRow(cats: seq<Category>, i: nat)
    requires i < |cats|
    requires forall j :: 0 <= j < |cats| && j != i ==> cats[j].momentoKey != cats[i].momentoKey
    ensures Accumulated(cats, cats[i].momentoKey) == Expand(cats[i].options)
    decreases |cats|
  {
    var n := |cats| - 1;
    if i < n {
      OwnRow(cats[..n], i);
    } else {
      NoRow(cats[..n], cats[i].momentoKey);
    }
  }

  /** Categories none of which has key `key` contribute nothing to its row. */
  lemma {:induction false} NoRow(cats: seq<Category>, key: string)
    requires forall j :: 0 <= j < |cats| ==> cats[j].momentoKey != key
    ensures Accumulated(cats, key) == []
    decreases |cats|
  {
    if cats != [] {
      NoRow(cats[..|cats| - 1], key);
    }
  }

  /**
   * In the grid of a parse, the row of each category's configured moment is its
   * options, each repeated for its days, then empty cells; options past the
   * seventh day are dropped.
   */
  lemma ParsedRow(lines: seq<string>, i: nat, d: nat)
    requires i < |Run(lines).categorias| && d < |Dias|
    requires Run(lines).categorias[i].momentoKey in MomentKeys()
    ensures var c := Run(lines).categorias[i]; var row := Expand(c.options);
      GridOf(Run(lines).categorias)[d][c.momentoKey] == if d < |row| then row[d] else None
  {
    var cats := Run(lines).categorias;
    KeysDistinct(lines);
    OwnRow(cats, i);
  }

  // ---------------------------------------------------------------------------
  // The loops of the source
  // ---------------------------------------------------------------------------

  /**
   * `categorias.filter((cat) => cat.momentoKey === key).forEach(...)`: the
   * accumulated options of one moment, before padding.
   */
  method AccumulateMoment(cats: seq<Category>, key: string) returns (acc: seq<Cell>)
    ensures acc == Accumulated(cats, key)
  {
    acc := [];
    for c := 0 to |cats|
      invariant acc == Accumulated(cats[..c], key)
    {
      assert cats[..c + 1][..c] == cats[..c];
      var cat := cats[c];
      if cat.momentoKey == key {
        for o := 0 to |cat.options|
          invariant acc == Accumulated(cats[..c], key) + Expand(cat.options[..o])
        {
          assert cat.options[..o + 1][..o] == cat.options[..o];
          var op := cat.options[o];
          for i := 0 to op.days
            invariant acc == Accumulated(cats[..c], key) + Expand(cat.options[..o]) + Repeat(op, i)
          {
            acc := acc + [Some(op)];
          }
        }
        assert cat.options[..|cat.options|] == cat.options;
      }
    }
    assert cats[..|cats|] == cats;
  }

  /** The `while` loop that pads with `null` up to seven cells, then `slice(0, 7)`. */
  method FitWeek(acc: seq<Cell>) returns (week: seq<Cell>)
    ensures |week| == |Dias|
    ensures forall d :: 0 <= d < |Dias| ==> week[d] == if d < |acc| then acc[d] else None
  {
    week := acc;
    while |week| < |Dias|
      invariant |acc| <= |week| && week[..|acc|] == acc
      invariant forall d :: |acc| <= d < |week| ==> week[d] == None
      decreases |Dias| - |week|
    {
      week := week + [None];
    }
    week := week[..|Dias|];
  }

  /** Day `d` of every row: the moments before `m` are filled, `m` up to day `upTo`, the rest `null`. */
  ghost predicate FilledUpTo(g: Grid, cats: seq<Category>, m: nat, upTo: nat) {
    && Complete(g)
    && forall d, j :: 0 <= d < |Dias| && 0 <= j < |Momentos| ==>
         g[d][Momentos[j].key] == if j < m || (j == m && d < upTo) then CellOf(cats, Momentos[j].key, d) else None
  }

  /** Every cell of a complete grid is `null`. */
  ghost predicate AllNull(g: Grid) {
    Complete(g) && forall d, k :: 0 <= d < |Dias| && k in g[d] ==> g[d][k] == None
  }

  /** `DIAS.forEach(...)` with `MOMENTOS.forEach(...)`: every cell of the grid set to `null`. */
  method NullGrid() returns (menuPorDia: Grid)
    ensures AllNull(menuPorDia)
  {
    menuPorDia := map[];
    for i := 0 to |Dias|
      invariant forall d :: d in menuPorDia <==> 0 <= d < i
      invariant forall d :: 0 <= d < i ==> menuPorDia[d].Keys == MomentKeys()
      invariant forall d, k :: 0 <= d < i && k in menuPorDia[d] ==> menuPorDia[d][k] == None
    {
      var row: map<string, Cell> := map[];
      for j := 0 to |Momentos|
        invariant row.Keys == KeysBefore(j)
        invariant forall k :: k in row ==> row[k] == None
      {
        row := row[Momentos[j].key := None];
      }
      menuPorDia := menuPorDia[i := row];
    }
  }

  /** The body of `for (const momento of MOMENTOS)`: accumulate, pad, cut, and copy into the grid. */
  method FillMoment(menuPorDia: Grid, cats: seq<Category>, m: nat) returns (filled: Grid)
    requires m < |Momentos| && FilledUpTo(menuPorDia, cats, m, 0)
    ensures FilledUpTo(filled, cats, m + 1, 0)
  {
    var key := Momentos[m].key;
    var acc := AccumulateMoment(cats, key);
    var week := FitWeek(acc);
    filled := menuPorDia;
    for d := 0 to |Dias|
      invariant FilledUpTo(filled, cats, m, d)
    {
      assert week[d] == CellOf(cats, key, d);
      FillCell(filled, cats, m, d, week[d]);
      filled := filled[d := filled[d][key := week[d]]];
    }
    RowFilled(filled, cats, m);
  }

  /** Writing the cell of moment `m` on day `d` extends the filled part by that cell. */
  lemma FillCell(g: Grid, cats: seq<Category>, m: nat, d: nat, cell: Cell)
    requires m < |Momentos| && d < |Dias| && FilledUpTo(g, cats, m, d)
    requires cell == CellOf(cats, Momentos[m].key, d)
    ensures FilledUpTo(g[d := g[d][Momentos[m].key := cell]], cats, m, d + 1)
  {
    MomentKeysDistinct();
  }

  /** A moment filled on every day is a moment done. */
  lemma RowFilled(g: Grid, cats: seq<Category>, m: nat)
    requires m < |Momentos| && FilledUpTo(g, cats, m, |Dias|)
    ensures FilledUpTo(g, cats, m + 1, 0)
  {
  }

  /** `parseMenu(text)`: read the categories, then fill the grid moment by moment. */
  method ParseMenu(text: string) returns (menuPorDia: Grid)
    ensures menuPorDia == GridOf(Categories(text))
    ensures Complete(menuPorDia)
  {
    var categorias := ParseLines(Lines(text));
    menuPorDia := NullGrid();
    for m := 0 to |Momentos|
      invariant FilledUpTo(menuPorDia, categorias, m, 0)
    {
      menuPorDia := FillMoment(menuPorDia, categorias, m);
    }
    FilledGrid(menuPorDia, categorias);
  }

  /** The configured keys of the first `j` moments. */
  function KeysBefore(j: nat): set<string>
    requires j <= |Momentos|
  {
    set i | 0 <= i < j :: Momentos[i].key
  }

  lemma MomentKeysDistinct()
    ensures forall i, j :: 0 <= i < j < |Momentos| ==> Momentos[i].key != Momentos[j].key
  {
  }

  /** A grid filled for every moment is the grid of the categories. */
  lemma FilledGrid(g: Grid, cats: seq<Category>)
    requires FilledUpTo(g, cats, |Momentos|, 0)
    ensures g == GridOf(cats)
  {
    forall d: nat | d < |Dias| ensures g[d] == DayOf(cats, d) {
      forall k | k in MomentKeys() ensures g[d][k] == CellOf(cats, k, d) {
        var j :| 0 <= j < |Momentos| && Momentos[j].key == k;
      }
    }
  }
}
