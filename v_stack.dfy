/** `VStack`: a flex container that lays its children out in a column. */
module VStack {
  import opened Bevy
  import Borders
  import Backgrounds
  import Stacks
  import opened Views

  /** `VStack::default()`: a flex column packed at the start, centred on the cross axis,
      with a zero row gap and the default border, background and (empty) shadow list. */
  function Default(): ViewState
  {
    ViewState(
      "VStack",
      NODE_DEFAULT.(display := Display.Flex, flexDirection := FlexDirection.Column,
                    justifyContent := JustifyContent.Start, alignItems := AlignItems.Center,
                    rowGap := Px(0.0)),
      Borders.Default(), Backgrounds.Default(), [], Option.None, Option.None)
  }

  /** The default lays out along the column axis, not reversed, in normal flow, with no gap
      in either direction; it carries its own name, the default border style and background
      (square, transparent, default image node) and no shadows. */
  lemma DefaultLayout()
    ensures var n := Default().node;
      n.display == Display.Flex && !Stacks.IsRowAxis(n.flexDirection) && !Stacks.IsReversed(n.flexDirection)
      && n.justifyContent == JustifyContent.Start && n.alignItems == AlignItems.Center
      && n.rowGap == ZERO && n.columnGap == ZERO && n.positionType == PositionType.Relative
    ensures Default().name == "VStack"
    ensures Default().border == Borders.Default() && Default().background == Backgrounds.Default()
    ensures Default().border.borderRadius == RADIUS_ZERO && Default().border.borderColor == NONE
    ensures Default().background.color == NONE && Default().background.image == IMAGE_NODE_DEFAULT
    ensures Default().boxShadow == [] && Default().text.None? && Default().textShadow.None?
  {
  }

  /** `VStack::new(a, g)` stores the gap as the row gap, between the children of the
      column, and keeps the column gap at zero. */
  lemma NewStoresRowGap(a: AlignItems, g: Val)
    ensures var n := Stacks.New(Default().node, a, g);
      n.rowGap == g && n.columnGap == ZERO && n.alignItems == a
      && n.flexDirection == FlexDirection.Column && n.justifyContent == JustifyContent.Start
  {
  }

  /** Whatever chain of calls came before, `spacing(g)` on a VStack writes the row gap and
      nothing else. */
  lemma {:induction false} SpacingAlwaysWritesRowGap(cs: seq<Call>, g: Val)
    ensures var v := ApplyAll(Default(), cs);
      Apply(v, StackCall(Stacks.Call.Spacing(g))) == v.(node := v.node.(rowGap := g))
  {
    AxesAreKept(Default(), cs);
  }
}
