/** `BackgroundView` and `BackgroundStyle`: a solid colour and an image node. Setting the
    image replaces the whole image node, so it discards an image mode set before it. */
module Backgrounds {
  import opened Bevy

  /** `BackgroundStyle`. */
  datatype BackgroundStyle = BackgroundStyle(color: Color, image: ImageNode)

  /** `BackgroundStyle::default()`: transparent colour, default image node. */
  function Default(): BackgroundStyle
  {
    BackgroundStyle(NONE, IMAGE_NODE_DEFAULT)
  }

  /** `BackgroundStyle::button()`: white colour, default image node. */
  function Button(): BackgroundStyle
  {
    BackgroundStyle(WHITE, IMAGE_NODE_DEFAULT)
  }

  /** The button background is white and differs from the default only in its colour. */
  lemma ButtonIsWhiteDefault()
    ensures Button().color == WHITE && Button().image == IMAGE_NODE_DEFAULT
    ensures Button() == Default().(color := WHITE) && Button() != Default()
  {
  }

  /** `background_color(c)`: the image stays. */
  function SetBackgroundColor(b: BackgroundStyle, c: Color): (r: BackgroundStyle)
    ensures r.color == c && r.image == b.image
  {
    b.(color := c)
  }

  /** `background_image(h)`: a fresh default image node holding `h`; the colour stays. */
  function SetBackgroundImage(b: BackgroundStyle, h: Handle): (r: BackgroundStyle)
    ensures r.image.image == h && r.image.imageMode == NodeImageMode.Auto
    ensures r.image.(image := DefaultHandle) == IMAGE_NODE_DEFAULT
    ensures r.color == b.color
  {
    b.(image := IMAGE_NODE_DEFAULT.(image := h))
  }

  /** `background_image_mode(m)`: only the mode of the image node changes. */
  function SetBackgroundImageMode(b: BackgroundStyle, m: NodeImageMode): (r: BackgroundStyle)
    ensures r.image.imageMode == m && r.image.image == b.image.image
    ensures r.image.(imageMode := b.image.imageMode) == b.image && r.color == b.color
  {
    var image := b.image.(imageMode := m);
    b.(image := image)
  }

  /** A mode set before the image is lost: the result is as if the mode was never set. */
  lemma ModeBeforeImageIsLost(b: BackgroundStyle, m: NodeImageMode, h: Handle)
    ensures SetBackgroundImage(SetBackgroundImageMode(b, m), h) == SetBackgroundImage(b, h)
    ensures SetBackgroundImage(SetBackgroundImageMode(b, m), h).image.imageMode == NodeImageMode.Auto
  {
  }

  /** A mode set after the image is kept, together with the image. */
  lemma ModeAfterImageIsKept(b: BackgroundStyle, m: NodeImageMode, h: Handle)
    ensures SetBackgroundImageMode(SetBackgroundImage(b, h), m).image.image == h
    ensures SetBackgroundImageMode(SetBackgroundImage(b, h), m).image.imageMode == m
  {
  }

  /** So the order of the two calls matters for every mode other than `Auto`. */
  lemma ImageAndModeOrderMatters(b: BackgroundStyle, m: NodeImageMode, h: Handle)
    requires m != NodeImageMode.Auto
    ensures SetBackgroundImage(SetBackgroundImageMode(b, m), h)
         != SetBackgroundImageMode(SetBackgroundImage(b, h), m)
  {
    ModeBeforeImageIsLost(b, m, h);
    ModeAfterImageIsKept(b, m, h);
  }

  /** The calls of `BackgroundView`. */
  datatype Call = BackgroundColor(color: Color) | BackgroundImage(image: Handle)
                | BackgroundImageMode(mode: NodeImageMode)

  function Apply(b: BackgroundStyle, c: Call): BackgroundStyle
  {
    match c
    case BackgroundColor(col) => SetBackgroundColor(b, col)
    case BackgroundImage(h) => SetBackgroundImage(b, h)
    case BackgroundImageMode(m) => SetBackgroundImageMode(b, m)
  }
}
