/**
 * The grid on screen (`currentMenuPorDia`) and the one change the page makes to
 * it after parsing: dropping a card on another card of the same moment swaps
 * the two cells.
 */
module MenuBoard {
  import opened Wrappers
  import opened MomentTable
  import opened MenuGrid

  /** What a drag carries: `{ momento, dia }` of the card picked up. */
  datatype DragData = DragData(momento: string, dia: int)

  /** What a drop did: swapped two cells, did nothing, or stopped on a day the grid does not have. */
  datatype DropOutcome = Swapped | Ignored | Failed

  /**
   * `temp = g[a][key]; g[a][key] = g[b][key]; g[b][key] = temp`: the grid
   * after exchanging the cells of moment `key` on days `a` and `b`. The two
   * cells trade places; no other cell changes, and no day or moment appears
   * or disappears.
   */
  function SwapCells(g: Grid, key: string, a: int, b: int): (r: Grid)
    requires a in g && b in g && key in g[a] && key in g[b]
    ensures r.Keys == g.Keys
    ensures forall d :: d in g ==> r[d].Keys == g[d].Keys
    ensures r[a][key] == g[b][key] && r[b][key] == g[a][key]
    ensures forall d, k :: d in g && k in g[d] && (k != key || (d != a && d != b)) ==> r[d][k] == g[d][k]
  {
    var temp := g[a][key];
    var g1 := g[a := g[a][key := g[b][key]]];
    g1[b := g1[b][key := temp]]
  }

  /** A swap keeps the grid complete. */
  lemma SwapComplete(g: Grid, key: string, a: int, b: int)
    requires Complete(g) && key in MomentKeys() && 0 <= a < |Dias| && 0 <= b < |Dias|
    ensures Complete(SwapCells(g, key, a, b))
  {
  }

  /** Swapping the same two cells again restores the grid. */
  lemma SwapTwice(g: Grid, key: string, a: int, b: int)
    requires a in g && b in g && key in g[a] && key in g[b]
    ensures var r := SwapCells(g, key, a, b);
      SwapCells(r, key, a, b) == g
  {
    var r := SwapCells(g, key, a, b);
    var r2 := SwapCells(r, key, a, b);
    forall d | d in g ensures r2[d] == g[d] {
    }
  }

  /** Which card was dragged onto which does not matter. */
  lemma SwapSymmetric(g: Grid, key: string, a: int, b: int)
    requires a in g && b in g && key in g[a] && key in g[b]
    ensures SwapCells(g, key, a, b) == SwapCells(g, key, b, a)
  {
    var r, r' := SwapCells(g, key, a, b), SwapCells(g, key, b, a);
    forall d | d in g ensures r[d] == r'[d] {
    }
  }

  /** The page's grid, `currentMenuPorDia`, with its drop handler. */
  class WeeklyGrid {
    var menu: Grid

    ghost predicate Valid()
      reads this
    {
      Complete(menu)
    }

    /** `renderMenuTable(menuData)` stores the grid it shows; a grid `parseMenu` built is valid. */
    constructor (menuData: Grid)
      ensures menu == menuData
      ensures Complete(menuData) ==> Valid()
    {
      menu := menuData;
    }

    /**
     * The `drop` listener of the card of moment `momento` on day `dia`: with
     * drag data of the same moment and another day, swap the two cells. A drop
     * without data, or from another moment or the same day, does nothing; a
     * drag day the grid does not have stops the handler before it writes.
     */
    method Drop(data: Option<DragData>, momento: string, dia: int) returns (outcome: DropOutcome)
      requires Valid() && momento in MomentKeys() && 0 <= dia < |Dias|
      modifies this
      ensures Valid()
      ensures outcome == Ignored <==> !(data.Some? && data.value.momento == momento && data.value.dia != dia)
      ensures outcome == Failed <==> data.Some? && data.value.momento == momento && data.value.dia != dia && data.value.dia !in old(menu)
      ensures outcome == Swapped ==> data.Some? && data.value.dia in old(menu) && menu == SwapCells(old(menu), momento, data.value.dia, dia)
      ensures outcome != Swapped ==> menu == old(menu)
    {
      if data.None? {
        return Ignored;
      }
      if !(data.value.momento == momento && data.value.dia != dia) {
        return Ignored;
      }
      var sourceDia := data.value.dia;
      var targetDia := dia;
      if sourceDia !in menu {
        return Failed;
      }
      SwapComplete(menu, momento, sourceDia, targetDia);
      var temp := menu[sourceDia][momento];
      menu := menu[sourceDia := menu[sourceDia][momento := menu[targetDia][momento]]];
      menu := menu[targetDia := menu[targetDia][momento := temp]];
      return Swapped;
    }
  }
}
