/** `HGrid`: a grid container. Its default auto flow is `Column` (its documentation says
    `Row`; the model follows the code). */
module HGrid {
  import opened Bevy
  import Borders
  import Backgrounds
  import Grids
  import opened Views

  /** `HGrid::default()`: a grid with column auto flow, packed at the start, centred on the
      cross axis, with a zero column gap and the default border, background and shadow list. */
  function Default(): ViewState
  {
    ViewState(
      "HGrid",
      NODE_DEFAULT.(display := Display.Grid, gridAutoFlow := GridAutoFlow.Column,
                    justifyContent := JustifyContent.Start, alignItems := AlignItems.Center,
                    columnGap := Px(0.0)),
      Borders.Default(), Backgrounds.Default(), [], Option.None, Option.None)
  }

  /** The default is a sparse grid in the column flow family, in normal flow, with no gap in
      either direction; it carries its own name, the default border style and background
      (square, transparent, default image node) and no shadows. */
  lemma DefaultLayout()
    ensures var n := Default().node;
      n.display == Display.Grid && !Grids.IsRowFlow(n.gridAutoFlow) && !Grids.IsDense(n.gridAutoFlow)
      && n.justifyContent == JustifyContent.Start && n.alignItems == AlignItems.Center
      && n.rowGap == ZERO && n.columnGap == ZERO && n.positionType == PositionType.Relative
    ensures Default().name == "HGrid"
    ensures Default().border == Borders.Default() && Default().background == Backgrounds.Default()
    ensures Default().border.borderRadius == RADIUS_ZERO && Default().border.borderColor == NONE
    ensures Default().background.color == NONE && Default().background.image == IMAGE_NODE_DEFAULT
    ensures Default().boxShadow == [] && Default().text.None? && Default().textShadow.None?
  {
  }

  /** Because the flow is `Column`, `HGrid::new(a, g)` stores the gap as the row gap; the
      column gap the default sets stays zero. */
  lemma NewStoresRowGap(a: AlignItems, g: Val)
    ensures var n := Grids.New(Default().node, a, g);
      n.rowGap == g && n.columnGap == ZERO && n.alignItems == a
      && n.gridAutoFlow == GridAutoFlow.Column && n.justifyContent == JustifyContent.Start
  {
  }

  /** Whatever chain of calls came before, `spacing(g)` on an HGrid writes the row gap and
      nothing else. */
  lemma {:induction false} SpacingAlwaysWritesRowGap(cs: seq<Call>, g: Val)
    ensures var v := ApplyAll(Default(), cs);
      Apply(v, GridCall(Grids.Call.Spacing(g))) == v.(node := v.node.(rowGap := g))
  {
    AxesAreKept(Default(), cs);
  }
}
