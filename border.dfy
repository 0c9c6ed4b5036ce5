/** `BorderView` and `BorderStyle`. The border widths live in the layout Node; the radius
    and colour live in the view's `BorderStyle`. */
module Borders {
  import opened Bevy

  /** `BorderStyle`: corner radius and border colour. */
  datatype BorderStyle = BorderStyle(borderRadius: BorderRadius, borderColor: Color)

  /** `BorderStyle::default()`. */
  function Default(): BorderStyle
  {
    BorderStyle(RADIUS_ZERO, NONE)
  }

  /** The default border has square corners and is fully transparent. */
  lemma DefaultIsSquareAndTransparent()
    ensures Default().borderRadius == RADIUS_ZERO
    ensures Default().borderColor == NONE && Default().borderColor.alpha == 0.0
  {
  }

  /** `border(r)`: writes the Node's border widths, not the `BorderStyle`. */
  function SetBorder(n: Node, r: UiRect): (res: Node)
    ensures res.border == r
    ensures SameExcept(n, res, {NodeField.Border})
  {
    n.(border := r)
  }

  /** `border_color(c)`: the radius stays. */
  function SetBorderColor(b: BorderStyle, c: Color): (r: BorderStyle)
    ensures r.borderColor == c && r.borderRadius == b.borderRadius
  {
    b.(borderColor := c)
  }

  /** `border_radius(r)`: the colour stays. */
  function SetBorderRadius(b: BorderStyle, radius: BorderRadius): (r: BorderStyle)
    ensures r.borderRadius == radius && r.borderColor == b.borderColor
  {
    b.(borderRadius := radius)
  }

  /** Colour and radius are independent: their builders commute, and a second call of
      either replaces the first. */
  lemma StyleSettersCommute(b: BorderStyle, c1: Color, c2: Color, r1: BorderRadius, r2: BorderRadius)
    ensures SetBorderRadius(SetBorderColor(b, c1), r1) == SetBorderColor(SetBorderRadius(b, r1), c1)
    ensures SetBorderColor(SetBorderColor(b, c1), c2) == SetBorderColor(b, c2)
    ensures SetBorderRadius(SetBorderRadius(b, r1), r2) == SetBorderRadius(b, r2)
  {
  }

  /** The calls of `BorderView`. */
  datatype Call = Border(border: UiRect) | BorderColor(color: Color) | BorderRadius(radius: BorderRadius)

  /** The Node and the `BorderStyle` after one call: `border` writes the former, the other
      two the latter. */
  function Apply(n: Node, b: BorderStyle, c: Call): (Node, BorderStyle)
  {
    match c
    case Border(r) => (SetBorder(n, r), b)
    case BorderColor(col) => (n, SetBorderColor(b, col))
    case BorderRadius(rad) => (n, SetBorderRadius(b, rad))
  }

  /** In the Node, a border call writes at most the border widths. */
  lemma ApplyWrites(n: Node, b: BorderStyle, c: Call)
    ensures SameExcept(n, Apply(n, b, c).0, {NodeField.Border})
  {
  }
}
