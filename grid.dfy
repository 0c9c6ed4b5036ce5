/** `GridContainer`: grid-layout builders for HGrid and VGrid. The flow toggle is a pure
    mapping on `GridAutoFlow`; every other builder writes Node fields. */
module Grids {
  import opened Bevy

  /** The row family: the grid is filled row by row. */
  predicate IsRowFlow(f: GridAutoFlow)
  {
    f == GridAutoFlow.Row || f == GridAutoFlow.RowDense
  }

  /** The dense packing variants. */
  predicate IsDense(f: GridAutoFlow)
  {
    f == GridAutoFlow.RowDense || f == GridAutoFlow.ColumnDense
  }

  /** The `match` in `reverse`: keeps the row/column family and toggles dense packing, which
      determines the result uniquely (see ToggledFlowIsDetermined). */
  function ToggledFlow(f: GridAutoFlow): (r: GridAutoFlow)
    ensures IsRowFlow(r) == IsRowFlow(f)
    ensures IsDense(r) != IsDense(f)
  {
    match f
    case Row => GridAutoFlow.RowDense
    case Column => GridAutoFlow.ColumnDense
    case RowDense => GridAutoFlow.Row
    case ColumnDense => GridAutoFlow.Column
  }

  lemma ToggledFlowIsDetermined(f: GridAutoFlow, e: GridAutoFlow)
    requires IsRowFlow(e) == IsRowFlow(f) && IsDense(e) != IsDense(f)
    ensures e == ToggledFlow(f)
  {
  }

  lemma ToggledFlowIsInvolution(f: GridAutoFlow)
    ensures ToggledFlow(ToggledFlow(f)) == f
  {
  }

  /** `reverse()`: replaces the auto flow by its toggle and changes nothing else. */
  function Reversed(n: Node): (r: Node)
    ensures r.gridAutoFlow == ToggledFlow(n.gridAutoFlow)
    ensures IsRowFlow(r.gridAutoFlow) == IsRowFlow(n.gridAutoFlow)
    ensures SameExcept(n, r, {NodeField.GridAutoFlow})
  {
    var flow := ToggledFlow(n.gridAutoFlow);
    n.(gridAutoFlow := flow)
  }

  /** Toggling twice restores the node. */
  lemma ReverseIsInvolution(n: Node)
    ensures Reversed(Reversed(n)) == n
  {
    ToggledFlowIsInvolution(n.gridAutoFlow);
  }

  /** `justify_content(j)`. */
  function SetJustifyContent(n: Node, j: JustifyContent): (r: Node)
    ensures r.justifyContent == j
    ensures SameExcept(n, r, {NodeField.JustifyContent})
  {
    n.(justifyContent := j)
  }

  /** `align_items(a)`. */
  function SetAlignItems(n: Node, a: AlignItems): (r: Node)
    ensures r.alignItems == a
    ensures SameExcept(n, r, {NodeField.AlignItems})
  {
    n.(alignItems := a)
  }

  /** `row_gap(g)`. */
  function SetRowGap(n: Node, g: Val): (r: Node)
    ensures r.rowGap == g
    ensures SameExcept(n, r, {NodeField.RowGap})
  {
    n.(rowGap := g)
  }

  /** `column_gap(g)`. */
  function SetColumnGap(n: Node, g: Val): (r: Node)
    ensures r.columnGap == g
    ensures SameExcept(n, r, {NodeField.ColumnGap})
  {
    n.(columnGap := g)
  }

  /** `spacing(g)`: the column gap for the row flows, the row gap for the column flows. */
  function Spaced(n: Node, g: Val): (r: Node)
    ensures IsRowFlow(n.gridAutoFlow) ==> r.columnGap == g && SameExcept(n, r, {NodeField.ColumnGap})
    ensures !IsRowFlow(n.gridAutoFlow) ==> r.rowGap == g && SameExcept(n, r, {NodeField.RowGap})
  {
    match n.gridAutoFlow
    case Row | RowDense => n.(columnGap := g)
    case Column | ColumnDense => n.(rowGap := g)
  }

  /** `spacing` writes the same gap field before and after `reverse`. */
  lemma SpacingCommutesWithReverse(n: Node, g: Val)
    ensures Spaced(Reversed(n), g) == Reversed(Spaced(n, g))
  {
  }

  /** `new(a, g)` applied to the container's default node: set `align_items`, then `spacing`. */
  function New(default: Node, a: AlignItems, g: Val): (r: Node)
    ensures r.alignItems == a && r.gridAutoFlow == default.gridAutoFlow
    ensures IsRowFlow(default.gridAutoFlow) ==>
      r.columnGap == g && SameExcept(default, r, {NodeField.AlignItems, NodeField.ColumnGap})
    ensures !IsRowFlow(default.gridAutoFlow) ==>
      r.rowGap == g && SameExcept(default, r, {NodeField.AlignItems, NodeField.RowGap})
  {
    var n := SetAlignItems(default, a);
    Spaced(n, g)
  }

  /** The calls of `GridContainer` that act on an existing view. */
  datatype Call = Reverse | JustifyContent(justify: JustifyContent) | AlignItems(align: AlignItems)
                | RowGap(gap: Val) | ColumnGap(gap: Val) | Spacing(gap: Val)

  function Apply(n: Node, c: Call): Node
  {
    match c
    case Reverse => Reversed(n)
    case JustifyContent(j) => SetJustifyContent(n, j)
    case AlignItems(a) => SetAlignItems(n, a)
    case RowGap(g) => SetRowGap(n, g)
    case ColumnGap(g) => SetColumnGap(n, g)
    case Spacing(g) => Spaced(n, g)
  }

  /** A grid call keeps the flow family and writes only grid-layout fields. */
  lemma ApplyWrites(n: Node, c: Call)
    ensures IsRowFlow(Apply(n, c).gridAutoFlow) == IsRowFlow(n.gridAutoFlow)
    ensures SameExcept(n, Apply(n, c), {NodeField.GridAutoFlow, NodeField.JustifyContent,
      NodeField.AlignItems, NodeField.RowGap, NodeField.ColumnGap})
  {
  }
}
