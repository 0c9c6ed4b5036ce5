/** `VGrid`: a grid container. Its default auto flow is `Row` (its documentation says
    `Column`; the model follows the code). */
module VGrid {
  import opened Bevy
  import Borders
  import Backgrounds
  import Grids
  import opened Views

  /** `VGrid::default()`: a grid with row auto flow, packed at the start, centred on the
      cross axis, with a zero row gap and the default border, background and shadow list. */
  function Default(): ViewState
  {
    ViewState(
      "VGrid",
      NODE_DEFAULT.(display := Display.Grid, gridAutoFlow := GridAutoFlow.Row,
                    justifyContent := JustifyContent.Start, alignItems := AlignItems.Center,
                    rowGap := Px(0.0)),
      Borders.Default(), Backgrounds.Default(), [], Option.None, Option.None)
  }

  /** The default is a sparse grid in the row flow family, in normal flow, with no gap in
      either direction; it carries its own name, the default border style and background
      (square, transparent, default image node) and no shadows. */
  lemma DefaultLayout()
    ensures var n := Default().node;
      n.display == Display.Grid && Grids.IsRowFlow(n.gridAutoFlow) && !Grids.IsDense(n.gridAutoFlow)
      && n.justifyContent == JustifyContent.Start && n.alignItems == AlignItems.Center
      && n.rowGap == ZERO && n.columnGap == ZERO && n.positionType == PositionType.Relative
    ensures Default().name == "VGrid"
    ensures Default().border == Borders.Default() && Default().background == Backgrounds.Default()
    ensures Default().border.borderRadius == RADIUS_ZERO && Default().border.borderColor == NONE
    ensures Default().background.color == NONE && Default().background.image == IMAGE_NODE_DEFAULT
    ensures Default().boxShadow == [] && Default().text.None? && Default().textShadow.None?
  {
  }

  /** Because the flow is `Row`, `VGrid::new(a, g)` stores the gap as the column gap; the
      row gap the default sets stays zero. */
  lemma NewStoresColumnGap(a: AlignItems, g: Val)
    ensures var n := Grids.New(Default().node, a, g);
      n.columnGap == g && n.rowGap == ZERO && n.alignItems == a
      && n.gridAutoFlow == GridAutoFlow.Row && n.justifyContent == JustifyContent.Start
  {
  }

  /** Whatever chain of calls came before, `spacing(g)` on a VGrid writes the column gap and
      nothing else. */
  lemma {:induction false} SpacingAlwaysWritesColumnGap(cs: seq<Call>, g: Val)
    ensures var v := ApplyAll(Default(), cs);
      Apply(v, GridCall(Grids.Call.Spacing(g))) == v.(node := v.node.(columnGap := g))
  {
    AxesAreKept(Default(), cs);
  }
}
