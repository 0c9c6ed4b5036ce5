/** `StackContainer`: flex-layout builders for HStack, VStack and the text button. The
    direction toggle is a pure mapping on `FlexDirection`; every other builder writes Node
    fields. */
module Stacks {
  import opened Bevy

  /** The row family: children are laid out along the horizontal axis. */
  predicate IsRowAxis(d: FlexDirection)
  {
    d == FlexDirection.Row || d == FlexDirection.RowReverse
  }

  /** The reversed directions. */
  predicate IsReversed(d: FlexDirection)
  {
    d == FlexDirection.RowReverse || d == FlexDirection.ColumnReverse
  }

  /** The `match` in `reverse`: keeps the axis and flips whether the direction is reversed,
      which determines the result uniquely (see ReversedDirectionIsDetermined). */
  function ReversedDirection(d: FlexDirection): (r: FlexDirection)
    ensures IsRowAxis(r) == IsRowAxis(d)
    ensures IsReversed(r) != IsReversed(d)
  {
    match d
    case Row => FlexDirection.RowReverse
    case Column => FlexDirection.ColumnReverse
    case RowReverse => FlexDirection.Row
    case ColumnReverse => FlexDirection.Column
  }

  /** Any direction on the same axis with the opposite orientation is the one `reverse` picks. */
  lemma ReversedDirectionIsDetermined(d: FlexDirection, e: FlexDirection)
    requires IsRowAxis(e) == IsRowAxis(d) && IsReversed(e) != IsReversed(d)
    ensures e == ReversedDirection(d)
  {
  }

  lemma ReversedDirectionIsInvolution(d: FlexDirection)
    ensures ReversedDirection(ReversedDirection(d)) == d
  {
  }

  /** `reverse()`: replaces the flex direction by its reversal and changes nothing else. */
  function Reversed(n: Node): (r: Node)
    ensures r.flexDirection == ReversedDirection(n.flexDirection)
    ensures IsRowAxis(r.flexDirection) == IsRowAxis(n.flexDirection)
    ensures SameExcept(n, r, {NodeField.FlexDirection})
  {
    var direction := ReversedDirection(n.flexDirection);
    n.(flexDirection := direction)
  }

  /** Reversing twice restores the node. */
  lemma ReverseIsInvolution(n: Node)
    ensures Reversed(Reversed(n)) == n
  {
    ReversedDirectionIsInvolution(n.flexDirection);
  }

  /** `wrap(w)`. */
  function SetWrap(n: Node, w: FlexWrap): (r: Node)
    ensures r.flexWrap == w
    ensures SameExcept(n, r, {NodeField.FlexWrap})
  {
    n.(flexWrap := w)
  }

  /** `justify_content(j)`. */
  function SetJustifyContent(n: Node, j: JustifyContent): (r: Node)
    ensures r.justifyContent == j
    ensures SameExcept(n, r, {NodeField.JustifyContent})
  {
    n.(justifyContent := j)
  }

  /** `align_items(a)`. */
  function SetAlignItems(n: Node, a: AlignItems): (r: Node)
    ensures r.alignItems == a
    ensures SameExcept(n, r, {NodeField.AlignItems})
  {
    n.(alignItems := a)
  }

  /** `row_gap(g)`. */
  function SetRowGap(n: Node, g: Val): (r: Node)
    ensures r.rowGap == g
    ensures SameExcept(n, r, {NodeField.RowGap})
  {
    n.(rowGap := g)
  }

  /** `column_gap(g)`. */
  function SetColumnGap(n: Node, g: Val): (r: Node)
    ensures r.columnGap == g
    ensures SameExcept(n, r, {NodeField.ColumnGap})
  {
    n.(columnGap := g)
  }

  /** `spacing(g)`: the gap between children along the main axis, which is the column gap
      for the row family and the row gap for the column family. */
  function Spaced(n: Node, g: Val): (r: Node)
    ensures IsRowAxis(n.flexDirection) ==> r.columnGap == g && SameExcept(n, r, {NodeField.ColumnGap})
    ensures !IsRowAxis(n.flexDirection) ==> r.rowGap == g && SameExcept(n, r, {NodeField.RowGap})
  {
    match n.flexDirection
    case Row | RowReverse => n.(columnGap := g)
    case Column | ColumnReverse => n.(rowGap := g)
  }

  /** `spacing` writes the same gap field before and after `reverse`. */
  lemma SpacingCommutesWithReverse(n: Node, g: Val)
    ensures Spaced(Reversed(n), g) == Reversed(Spaced(n, g))
  {
  }

  /** `new(a, g)` applied to the container's default node: set `align_items`, then `spacing`. */
  function New(default: Node, a: AlignItems, g: Val): (r: Node)
    ensures r.alignItems == a && r.flexDirection == default.flexDirection
    ensures IsRowAxis(default.flexDirection) ==>
      r.columnGap == g && SameExcept(default, r, {NodeField.AlignItems, NodeField.ColumnGap})
    ensures !IsRowAxis(default.flexDirection) ==>
      r.rowGap == g && SameExcept(default, r, {NodeField.AlignItems, NodeField.RowGap})
  {
    var n := SetAlignItems(default, a);
    Spaced(n, g)
  }

  /** The calls of `StackContainer` that act on an existing view. */
  datatype Call = Reverse | Wrap(wrap: FlexWrap) | JustifyContent(justify: JustifyContent)
                | AlignItems(align: AlignItems) | RowGap(gap: Val) | ColumnGap(gap: Val)
                | Spacing(gap: Val)

  function Apply(n: Node, c: Call): Node
  {
    match c
    case Reverse => Reversed(n)
    case Wrap(w) => SetWrap(n, w)
    case JustifyContent(j) => SetJustifyContent(n, j)
    case AlignItems(a) => SetAlignItems(n, a)
    case RowGap(g) => SetRowGap(n, g)
    case ColumnGap(g) => SetColumnGap(n, g)
    case Spacing(g) => Spaced(n, g)
  }

  /** A stack call keeps the flex axis and writes only flex-layout fields. */
  lemma ApplyWrites(n: Node, c: Call)
    ensures IsRowAxis(Apply(n, c).flexDirection) == IsRowAxis(n.flexDirection)
    ensures SameExcept(n, Apply(n, c), {NodeField.FlexDirection, NodeField.FlexWrap,
      NodeField.JustifyContent, NodeField.AlignItems, NodeField.RowGap, NodeField.ColumnGap})
  {
  }
}
