/** `TextView` and `TextStyle`: text content, text colour and font settings. Each builder
    writes one sub-field and keeps the rest. */
module Texts {
  import opened Bevy

  /** `TextStyle`: the text, its colour and its `TextFont`. */
  datatype TextStyle = TextStyle(text: string, color: Color, font: TextFont)

  /** `text(s)`. */
  function SetText(t: TextStyle, s: string): (r: TextStyle)
    ensures r.text == s && r.color == t.color && r.font == t.font
  {
    t.(text := s)
  }

  /** `text_color(c)`. */
  function SetTextColor(t: TextStyle, c: Color): (r: TextStyle)
    ensures r.color == c && r.text == t.text && r.font == t.font
  {
    t.(color := c)
  }

  /** `font(h)`: the font handle; size, line height and smoothing stay. */
  function SetFont(t: TextStyle, h: Handle): (r: TextStyle)
    ensures r.font.font == h && r.text == t.text && r.color == t.color
    ensures r.font.fontSize == t.font.fontSize && r.font.lineHeight == t.font.lineHeight
    ensures r.font.fontSmoothing == t.font.fontSmoothing
  {
    var font := t.font.(font := h);
    t.(font := font)
  }

  /** `font_size(s)`. */
  function SetFontSize(t: TextStyle, size: F32): (r: TextStyle)
    ensures r.font.fontSize == size && r.text == t.text && r.color == t.color
    ensures r.font.font == t.font.font && r.font.lineHeight == t.font.lineHeight
    ensures r.font.fontSmoothing == t.font.fontSmoothing
  {
    var font := t.font.(fontSize := size);
    t.(font := font)
  }

  /** `line_height(l)`. */
  function SetLineHeight(t: TextStyle, l: LineHeight): (r: TextStyle)
    ensures r.font.lineHeight == l && r.text == t.text && r.color == t.color
    ensures r.font.font == t.font.font && r.font.fontSize == t.font.fontSize
    ensures r.font.fontSmoothing == t.font.fontSmoothing
  {
    var font := t.font.(lineHeight := l);
    t.(font := font)
  }

  /** `font_smoothing(f)`. */
  function SetFontSmoothing(t: TextStyle, f: FontSmoothing): (r: TextStyle)
    ensures r.font.fontSmoothing == f && r.text == t.text && r.color == t.color
    ensures r.font.font == t.font.font && r.font.fontSize == t.font.fontSize
    ensures r.font.lineHeight == t.font.lineHeight
  {
    var font := t.font.(fontSmoothing := f);
    t.(font := font)
  }

  /** Each text builder writes its own part of the style, so any two builders of different
      parts (all fifteen pairs) can be chained in either order. */
  lemma SettersOfDifferentPartsCommute(t: TextStyle, s: string, c: Color, h: Handle, size: F32,
                                       l: LineHeight, f: FontSmoothing)
    ensures SetTextColor(SetText(t, s), c) == SetText(SetTextColor(t, c), s)
    ensures SetFont(SetText(t, s), h) == SetText(SetFont(t, h), s)
    ensures SetFontSize(SetText(t, s), size) == SetText(SetFontSize(t, size), s)
    ensures SetLineHeight(SetText(t, s), l) == SetText(SetLineHeight(t, l), s)
    ensures SetFontSmoothing(SetText(t, s), f) == SetText(SetFontSmoothing(t, f), s)
    ensures SetFont(SetTextColor(t, c), h) == SetTextColor(SetFont(t, h), c)
    ensures SetFontSize(SetTextColor(t, c), size) == SetTextColor(SetFontSize(t, size), c)
    ensures SetLineHeight(SetTextColor(t, c), l) == SetTextColor(SetLineHeight(t, l), c)
    ensures SetFontSmoothing(SetTextColor(t, c), f) == SetTextColor(SetFontSmoothing(t, f), c)
    ensures SetFontSize(SetFont(t, h), size) == SetFont(SetFontSize(t, size), h)
    ensures SetLineHeight(SetFont(t, h), l) == SetFont(SetLineHeight(t, l), h)
    ensures SetFontSmoothing(SetFont(t, h), f) == SetFont(SetFontSmoothing(t, f), h)
    ensures SetLineHeight(SetFontSize(t, size), l) == SetFontSize(SetLineHeight(t, l), size)
    ensures SetFontSmoothing(SetFontSize(t, size), f) == SetFontSize(SetFontSmoothing(t, f), size)
    ensures SetFontSmoothing(SetLineHeight(t, l), f) == SetLineHeight(SetFontSmoothing(t, f), l)
  {
  }

  /** Calling the same text builder twice leaves only the second value. */
  lemma LastWriteWins(t: TextStyle, s1: string, s2: string, c1: Color, c2: Color, h1: Handle, h2: Handle,
                      size1: F32, size2: F32, l1: LineHeight, l2: LineHeight,
                      f1: FontSmoothing, f2: FontSmoothing)
    ensures SetText(SetText(t, s1), s2) == SetText(t, s2)
    ensures SetTextColor(SetTextColor(t, c1), c2) == SetTextColor(t, c2)
    ensures SetFont(SetFont(t, h1), h2) == SetFont(t, h2)
    ensures SetFontSize(SetFontSize(t, size1), size2) == SetFontSize(t, size2)
    ensures SetLineHeight(SetLineHeight(t, l1), l2) == SetLineHeight(t, l2)
    ensures SetFontSmoothing(SetFontSmoothing(t, f1), f2) == SetFontSmoothing(t, f2)
  {
  }
}
