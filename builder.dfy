/** The builders as the crate runs them: each trait method borrows one field of the view
    through its accessor (`node_node()`, `name_node()`, `border_node()`, `background_node()`,
    `box_shadow_node()`, `text_node()`, `text_shadow_node()`) and assigns to it in place.
    `View` holds the fields of a view struct; every method changes only the field its
    accessor hands out, and its new value is the one the pure model gives, so the chain
    lemmas of `Views` apply to any sequence of these method calls. */
module Builder {
  import opened Bevy
  import Base
  import Stacks
  import Grids
  import Positions
  import Shadows
  import Borders
  import Backgrounds
  import Texts
  import opened Views

  class View {
    var name: string
    var node: Node
    var border: Borders.BorderStyle
    var background: Backgrounds.BackgroundStyle
    var boxShadow: Shadows.BoxShadow
    var text: Option<Texts.TextStyle>
    var textShadow: Option<TextShadow>

    /** The view's fields as a value. */
    function Snapshot(): ViewState
      reads this
    {
      ViewState(name, node, border, background, boxShadow, text, textShadow)
    }

    /** A view built from its `Default::default()` fields. */
    constructor (init: ViewState)
      ensures Snapshot() == init
    {
      name, node, border, background := init.name, init.node, init.border, init.background;
      boxShadow, text, textShadow := init.boxShadow, init.text, init.textShadow;
    }

    /** `StackContainer::new(a, g)`: the default, then `align_items` written, then `spacing(g)`. */
    constructor StackNew(default: ViewState, a: AlignItems, g: Val)
      ensures Snapshot() == default.(node := Stacks.New(default.node, a, g))
    {
      name, node, border, background := default.name, default.node, default.border, default.background;
      boxShadow, text, textShadow := default.boxShadow, default.text, default.textShadow;
      new;
      node := node.(alignItems := a);
      StackSpacing(g);
    }

    /** `GridContainer::new(a, g)`: the default, then `align_items` written, then `spacing(g)`. */
    constructor GridNew(default: ViewState, a: AlignItems, g: Val)
      ensures Snapshot() == default.(node := Grids.New(default.node, a, g))
    {
      name, node, border, background := default.name, default.node, default.border, default.background;
      boxShadow, text, textShadow := default.boxShadow, default.text, default.textShadow;
      new;
      node := node.(alignItems := a);
      GridSpacing(g);
    }

    // UiBase

    /** `name(n)`: replaces the name; the Node is untouched. */
    method SetName(n: string)
      modifies this`name
      ensures name == n
      ensures Snapshot() == Apply(old(Snapshot()), Call.Name(n))
    {
      name := n;
    }

    method SetPadding(p: UiRect)
      modifies this`node
      ensures node == Base.SetPadding(old(node), p)
      ensures Snapshot() == Apply(old(Snapshot()), UiBaseCall(Base.Call.Padding(p)))
    {
      node := node.(padding := p);
    }

    method Frame(w: Val, h: Val)
      modifies this`node
      ensures node == Base.SetFrame(old(node), w, h)
      ensures Snapshot() == Apply(old(Snapshot()), UiBaseCall(Base.Call.Frame(w, h)))
    {
      node := node.(width := w);
      node := node.(height := h);
    }

    method SetWidth(w: Val)
      modifies this`node
      ensures node == Base.SetWidth(old(node), w)
      ensures Snapshot() == Apply(old(Snapshot()), UiBaseCall(Base.Call.Width(w)))
    {
      node := node.(width := w);
    }

    method SetHeight(h: Val)
      modifies this`node
      ensures node == Base.SetHeight(old(node), h)
      ensures Snapshot() == Apply(old(Snapshot()), UiBaseCall(Base.Call.Height(h)))
    {
      node := node.(height := h);
    }

    // StackContainer

    /** `reverse()` of a stack: the pure direction mapping, then one assignment. */
    method StackReverse()
      modifies this`node
      ensures node == Stacks.Reversed(old(node))
      ensures Snapshot() == Apply(old(Snapshot()), StackCall(Stacks.Call.Reverse))
    {
      var direction := Stacks.ReversedDirection(node.flexDirection);
      node := node.(flexDirection := direction);
    }

    method SetWrap(w: FlexWrap)
      modifies this`node
      ensures node == Stacks.SetWrap(old(node), w)
      ensures Snapshot() == Apply(old(Snapshot()), StackCall(Stacks.Call.Wrap(w)))
    {
      node := node.(flexWrap := w);
    }

    /** `justify_content(j)`, declared alike by both container traits. */
    method SetJustifyContent(j: JustifyContent)
      modifies this`node
      ensures node == Stacks.SetJustifyContent(old(node), j) == Grids.SetJustifyContent(old(node), j)
      ensures Snapshot() == Apply(old(Snapshot()), StackCall(Stacks.Call.JustifyContent(j)))
                         == Apply(old(Snapshot()), GridCall(Grids.Call.JustifyContent(j)))
    {
      node := node.(justifyContent := j);
    }

    /** `align_items(a)`, declared alike by both container traits. */
    method SetAlignItems(a: AlignItems)
      modifies this`node
      ensures node == Stacks.SetAlignItems(old(node), a) == Grids.SetAlignItems(old(node), a)
      ensures Snapshot() == Apply(old(Snapshot()), StackCall(Stacks.Call.AlignItems(a)))
                         == Apply(old(Snapshot()), GridCall(Grids.Call.AlignItems(a)))
    {
      node := node.(alignItems := a);
    }

    /** `row_gap(g)`, declared alike by both container traits. */
    method SetRowGap(g: Val)
      modifies this`node
      ensures node == Stacks.SetRowGap(old(node), g) == Grids.SetRowGap(old(node), g)
      ensures Snapshot() == Apply(old(Snapshot()), StackCall(Stacks.Call.RowGap(g)))
                         == Apply(old(Snapshot()), GridCall(Grids.Call.RowGap(g)))
    {
      node := node.(rowGap := g);
    }

    /** `column_gap(g)`, declared alike by both container traits. */
    method SetColumnGap(g: Val)
      modifies this`node
      ensures node == Stacks.SetColumnGap(old(node), g) == Grids.SetColumnGap(old(node), g)
      ensures Snapshot() == Apply(old(Snapshot()), StackCall(Stacks.Call.ColumnGap(g)))
                         == Apply(old(Snapshot()), GridCall(Grids.Call.ColumnGap(g)))
    {
      node := node.(columnGap := g);
    }

    /** `spacing(g)` of a stack: the gap field is chosen by the flex direction. */
    method StackSpacing(g: Val)
      modifies this`node
      ensures node == Stacks.Spaced(old(node), g)
      ensures Snapshot() == Apply(old(Snapshot()), StackCall(Stacks.Call.Spacing(g)))
    {
      match node.flexDirection
      case Row | RowReverse => node := node.(columnGap := g);
      case Column | ColumnReverse => node := node.(rowGap := g);
    }

    // GridContainer

    /** `reverse()` of a grid: the pure flow mapping, then one assignment. */
    method GridReverse()
      modifies this`node
      ensures node == Grids.Reversed(old(node))
      ensures Snapshot() == Apply(old(Snapshot()), GridCall(Grids.Call.Reverse))
    {
      var flow := Grids.ToggledFlow(node.gridAutoFlow);
      node := node.(gridAutoFlow := flow);
    }

    /** `spacing(g)` of a grid: the gap field is chosen by the auto flow. */
    method GridSpacing(g: Val)
      modifies this`node
      ensures node == Grids.Spaced(old(node), g)
      ensures Snapshot() == Apply(old(Snapshot()), GridCall(Grids.Call.Spacing(g)))
    {
      match node.gridAutoFlow
      case Row | RowDense => node := node.(columnGap := g);
      case Column | ColumnDense => node := node.(rowGap := g);
    }

    // PositionView

    method SetTop(y: Val)
      modifies this`node
      ensures node == Positions.SetTop(old(node), y)
      ensures Snapshot() == Apply(old(Snapshot()), PositionCall(Positions.Call.Top(y)))
    {
      node := node.(positionType := PositionType.Absolute);
      node := node.(top := y);
    }

    method SetLeft(x: Val)
      modifies this`node
      ensures node == Positions.SetLeft(old(node), x)
      ensures Snapshot() == Apply(old(Snapshot()), PositionCall(Positions.Call.Left(x)))
    {
      node := node.(positionType := PositionType.Absolute);
      node := node.(left := x);
    }

    method SetRight(x: Val)
      modifies this`node
      ensures node == Positions.SetRight(old(node), x)
      ensures Snapshot() == Apply(old(Snapshot()), PositionCall(Positions.Call.Right(x)))
    {
      node := node.(positionType := PositionType.Absolute);
      node := node.(right := x);
    }

    method SetBottom(y: Val)
      modifies this`node
      ensures node == Positions.SetBottom(old(node), y)
      ensures Snapshot() == Apply(old(Snapshot()), PositionCall(Positions.Call.Bottom(y)))
    {
      node := node.(positionType := PositionType.Absolute);
      node := node.(bottom := y);
    }

    method Position(x: Val, y: Val)
      modifies this`node
      ensures node == Positions.SetPosition(old(node), x, y)
      ensures Snapshot() == Apply(old(Snapshot()), PositionCall(Positions.Call.Position(x, y)))
    {
      node := node.(positionType := PositionType.Absolute);
      node := node.(left := x);
      node := node.(top := y);
    }

    // BorderView

    /** `border(r)`: writes the Node's border widths, not the `BorderStyle`. */
    method SetBorder(r: UiRect)
      modifies this`node
      ensures node == Borders.SetBorder(old(node), r)
      ensures Snapshot() == Apply(old(Snapshot()), BorderCall(Borders.Call.Border(r)))
    {
      node := node.(border := r);
    }

    method SetBorderColor(c: Color)
      modifies this`border
      ensures border == Borders.SetBorderColor(old(border), c)
      ensures Snapshot() == Apply(old(Snapshot()), BorderCall(Borders.Call.BorderColor(c)))
    {
      border := border.(borderColor := c);
    }

    method SetBorderRadius(r: BorderRadius)
      modifies this`border
      ensures border == Borders.SetBorderRadius(old(border), r)
      ensures Snapshot() == Apply(old(Snapshot()), BorderCall(Borders.Call.BorderRadius(r)))
    {
      border := border.(borderRadius := r);
    }

    // BackgroundView

    method SetBackgroundColor(c: Color)
      modifies this`background
      ensures background == Backgrounds.SetBackgroundColor(old(background), c)
      ensures Snapshot() == Apply(old(Snapshot()), BackgroundCall(Backgrounds.Call.BackgroundColor(c)))
    {
      background := background.(color := c);
    }

    /** `background_image(h)`: the whole image node is replaced. */
    method SetBackgroundImage(h: Handle)
      modifies this`background
      ensures background == Backgrounds.SetBackgroundImage(old(background), h)
      ensures Snapshot() == Apply(old(Snapshot()), BackgroundCall(Backgrounds.Call.BackgroundImage(h)))
    {
      background := background.(image := IMAGE_NODE_DEFAULT.(image := h));
    }

    method SetBackgroundImageMode(m: NodeImageMode)
      modifies this`background
      ensures background == Backgrounds.SetBackgroundImageMode(old(background), m)
      ensures Snapshot() == Apply(old(Snapshot()), BackgroundCall(Backgrounds.Call.BackgroundImageMode(m)))
    {
      background := background.(image := background.image.(imageMode := m));
    }

    // BoxShadowView

    /** `shadow(xs)`: the list becomes exactly `xs`. */
    method SetShadows(xs: Shadows.BoxShadow)
      modifies this`boxShadow
      ensures boxShadow == xs
      ensures Snapshot() == Apply(old(Snapshot()), ShadowCall(Shadows.Call.Shadow(xs)))
    {
      boxShadow := xs;
    }

    /** `add_shadow(s)`: pushes onto the list. */
    method AddShadow(s: ShadowStyle)
      modifies this`boxShadow
      ensures boxShadow == Shadows.PushShadow(old(boxShadow), s)
      ensures Snapshot() == Apply(old(Snapshot()), ShadowCall(Shadows.Call.AddShadow(s)))
    {
      boxShadow := boxShadow + [s];
    }

    // TextShadowView: only views that carry a text shadow implement it.

    method SetTextShadowOffset(o: Vec2)
      requires textShadow.Some?
      modifies this`textShadow
      ensures textShadow == Some(Shadows.SetTextShadowOffset(old(textShadow).value, o))
    {
      textShadow := Some(textShadow.value.(offset := o));
    }

    method SetTextShadowColor(c: Color)
      requires textShadow.Some?
      modifies this`textShadow
      ensures textShadow == Some(Shadows.SetTextShadowColor(old(textShadow).value, c))
    {
      textShadow := Some(textShadow.value.(color := c));
    }

    // TextView: only views that carry a text style implement it.

    method SetText(s: string)
      requires text.Some?
      modifies this`text
      ensures text == Some(Texts.SetText(old(text).value, s))
    {
      text := Some(text.value.(text := s));
    }

    method SetTextColor(c: Color)
      requires text.Some?
      modifies this`text
      ensures text == Some(Texts.SetTextColor(old(text).value, c))
    {
      text := Some(text.value.(color := c));
    }

    method SetFont(h: Handle)
      requires text.Some?
      modifies this`text
      ensures text == Some(Texts.SetFont(old(text).value, h))
    {
      text := Some(text.value.(font := text.value.font.(font := h)));
    }

    method SetFontSize(size: F32)
      requires text.Some?
      modifies this`text
      ensures text == Some(Texts.SetFontSize(old(text).value, size))
    {
      text := Some(text.value.(font := text.value.font.(fontSize := size)));
    }

    method SetLineHeight(l: LineHeight)
      requires text.Some?
      modifies this`text
      ensures text == Some(Texts.SetLineHeight(old(text).value, l))
    {
      text := Some(text.value.(font := text.value.font.(lineHeight := l)));
    }

    method SetFontSmoothing(f: FontSmoothing)
      requires text.Some?
      modifies this`text
      ensures text == Some(Texts.SetFontSmoothing(old(text).value, f))
    {
      text := Some(text.value.(font := text.value.font.(fontSmoothing := f)));
    }
  }
}
