/** `HStack`: a flex container that lays its children out in a row. */
module HStack {
  import opened Bevy
  import Borders
  import Backgrounds
  import Stacks
  import opened Views
  import Builder

  /** `HStack::default()`: a flex row packed at the start, centred on the cross axis, with a
      zero column gap and the default border, background and (empty) shadow list. */
  function Default(): ViewState
  {
    ViewState(
      "HStack",
      NODE_DEFAULT.(display := Display.Flex, flexDirection := FlexDirection.Row,
                    justifyContent := JustifyContent.Start, alignItems := AlignItems.Center,
                    columnGap := Px(0.0)),
      Borders.Default(), Backgrounds.Default(), [], Option.None, Option.None)
  }

  /** The default lays out along the row axis, not reversed, in normal flow, with no gap
      in either direction; it carries its own name, the default border style and background
      (square, transparent, default image node) and no shadows. */
  lemma DefaultLayout()
    ensures var n := Default().node;
      n.display == Display.Flex && Stacks.IsRowAxis(n.flexDirection) && !Stacks.IsReversed(n.flexDirection)
      && n.justifyContent == JustifyContent.Start && n.alignItems == AlignItems.Center
      && n.rowGap == ZERO && n.columnGap == ZERO && n.positionType == PositionType.Relative
    ensures Default().name == "HStack"
    ensures Default().border == Borders.Default() && Default().background == Backgrounds.Default()
    ensures Default().border.borderRadius == RADIUS_ZERO && Default().border.borderColor == NONE
    ensures Default().background.color == NONE && Default().background.image == IMAGE_NODE_DEFAULT
    ensures Default().boxShadow == [] && Default().text.None? && Default().textShadow.None?
  {
  }

  /** `HStack::new(a, g)` stores the gap as the column gap, between the children of the row,
      and keeps the row gap at zero. */
  lemma NewStoresColumnGap(a: AlignItems, g: Val)
    ensures var n := Stacks.New(Default().node, a, g);
      n.columnGap == g && n.rowGap == ZERO && n.alignItems == a
      && n.flexDirection == FlexDirection.Row && n.justifyContent == JustifyContent.Start
  {
  }

  /** Whatever chain of calls came before, `spacing(g)` on an HStack writes the column gap
      and nothing else. */
  lemma {:induction false} SpacingAlwaysWritesColumnGap(cs: seq<Call>, g: Val)
    ensures var v := ApplyAll(Default(), cs);
      Apply(v, StackCall(Stacks.Call.Spacing(g))) == v.(node := v.node.(columnGap := g))
  {
    AxesAreKept(Default(), cs);
  }

  /** The menu bar of the crate's introduction: a top-aligned HStack with an automatic gap,
      a white background and its contents packed at the start; everything else (border,
      background image, shadows) stays as in the default. */
  method MenuBar() returns (bar: Builder.View)
    ensures fresh(bar)
    ensures bar.name == "HStack" && bar.background.color == WHITE
    ensures bar.Snapshot() == Default().(node := Default().node.(alignItems := AlignItems.Start, columnGap := Val.Auto),
                                         background := Default().background.(color := WHITE))
  {
    bar := new Builder.View.StackNew(Default(), AlignItems.Start, Val.Auto);
    bar.SetBackgroundColor(WHITE);
    bar.SetJustifyContent(JustifyContent.Start);
  }
}
