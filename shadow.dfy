/** `BoxShadowView` and `TextShadowView`: the box-shadow list of a view and the offset and
    colour of a text shadow. */
module Shadows {
  import opened Bevy

  /** `BoxShadow`: the list of shadows drawn behind the node. */
  type BoxShadow = seq<ShadowStyle>

  /** `add_shadow(s)`: pushes `s`; the existing shadows keep their places. */
  function PushShadow(shadows: BoxShadow, s: ShadowStyle): (r: BoxShadow)
    ensures |r| == |shadows| + 1
    ensures r[..|shadows|] == shadows && r[|shadows|] == s
  {
    shadows + [s]
  }

  /** `text_shadow_offset(o)`: the colour stays. */
  function SetTextShadowOffset(t: TextShadow, o: Vec2): (r: TextShadow)
    ensures r.offset == o && r.color == t.color
  {
    t.(offset := o)
  }

  /** `text_shadow_color(c)`: the offset stays. */
  function SetTextShadowColor(t: TextShadow, c: Color): (r: TextShadow)
    ensures r.color == c && r.offset == t.offset
  {
    t.(color := c)
  }

  /** The two text-shadow builders write different fields, so their order does not matter,
      and a second call of either replaces the first. */
  lemma TextShadowSettersCommute(t: TextShadow, o1: Vec2, o2: Vec2, c1: Color, c2: Color)
    ensures SetTextShadowColor(SetTextShadowOffset(t, o1), c1)
         == SetTextShadowOffset(SetTextShadowColor(t, c1), o1)
    ensures SetTextShadowOffset(SetTextShadowOffset(t, o1), o2) == SetTextShadowOffset(t, o2)
    ensures SetTextShadowColor(SetTextShadowColor(t, c1), c2) == SetTextShadowColor(t, c2)
  {
  }

  /** The calls of `BoxShadowView`. */
  datatype Call = Shadow(shadows: BoxShadow) | AddShadow(shadow: ShadowStyle)

  /** `shadow(xs)` replaces the list; `add_shadow(s)` appends to it. */
  function Apply(shadows: BoxShadow, c: Call): BoxShadow
  {
    match c
    case Shadow(xs) => xs
    case AddShadow(s) => PushShadow(shadows, s)
  }
}
