/** Stand-ins for the Bevy value types that the builders store. Nothing here is computed on:
    the builders only copy these values into fields. Floats (`f32`) are `real` and are never
    used in arithmetic; handles, shadow styles, line heights and font smoothing modes are
    opaque. The default values are Bevy's own (`Node::default()`, `ImageNode::default()`,
    the transparent `BackgroundColor` and `BorderColor` defaults). */
module Bevy {

  /** A stored `f32`; no arithmetic is ever done on it. */
  type F32 = real

  /** `Val`: a length in one of Bevy's units. */
  datatype Val = Auto | Px(px: F32) | Percent(percent: F32) | Vw(vw: F32) | Vh(vh: F32)
               | VMin(vmin: F32) | VMax(vmax: F32)

  /** `Val::ZERO`, written `Val::Px(0.0)` in the container defaults. */
  const ZERO: Val := Px(0.0)

  /** `UiRect`: one length per side. */
  datatype UiRect = UiRect(left: Val, right: Val, top: Val, bottom: Val)

  /** `UiRect::DEFAULT`: zero on every side. */
  const RECT_ZERO: UiRect := UiRect(ZERO, ZERO, ZERO, ZERO)

  datatype Display = Flex | Grid | Block | None
  datatype PositionType = Relative | Absolute
  datatype FlexDirection = Row | Column | RowReverse | ColumnReverse
  datatype FlexWrap = NoWrap | Wrap | WrapReverse
  datatype GridAutoFlow = Row | Column | RowDense | ColumnDense
  datatype JustifyContent = Default | Start | End | FlexStart | FlexEnd | Center | Stretch
                          | SpaceBetween | SpaceEvenly | SpaceAround
  datatype AlignItems = Default | Start | End | FlexStart | FlexEnd | Center | Baseline | Stretch

  /** The fields of Bevy's layout `Node` that the builders read or write. */
  datatype Node = Node(
    display: Display,
    flexDirection: FlexDirection,
    gridAutoFlow: GridAutoFlow,
    justifyContent: JustifyContent,
    alignItems: AlignItems,
    flexWrap: FlexWrap,
    rowGap: Val,
    columnGap: Val,
    padding: UiRect,
    width: Val,
    height: Val,
    border: UiRect,
    positionType: PositionType,
    top: Val,
    left: Val,
    right: Val,
    bottom: Val)

  /** `Node::default()`, restricted to the fields above. */
  const NODE_DEFAULT: Node := Node(
    display := Display.Flex,
    flexDirection := FlexDirection.Row,
    gridAutoFlow := GridAutoFlow.Row,
    justifyContent := JustifyContent.Default,
    alignItems := AlignItems.Default,
    flexWrap := FlexWrap.NoWrap,
    rowGap := ZERO,
    columnGap := ZERO,
    padding := RECT_ZERO,
    width := Val.Auto,
    height := Val.Auto,
    border := RECT_ZERO,
    positionType := PositionType.Relative,
    top := Val.Auto,
    left := Val.Auto,
    right := Val.Auto,
    bottom := Val.Auto)

  /** Names for the fields of `Node`, so that "only these fields change" can be stated. */
  datatype NodeField = Display | FlexDirection | GridAutoFlow | JustifyContent | AlignItems
                     | FlexWrap | RowGap | ColumnGap | Padding | Width | Height | Border
                     | PositionType | Top | Left | Right | Bottom

  /** The value of one field of a `Node`. */
  datatype FieldValue =
    | DisplayValue(display: Display)
    | FlexDirectionValue(flexDirection: FlexDirection)
    | GridAutoFlowValue(gridAutoFlow: GridAutoFlow)
    | JustifyContentValue(justifyContent: JustifyContent)
    | AlignItemsValue(alignItems: AlignItems)
    | FlexWrapValue(flexWrap: FlexWrap)
    | PositionTypeValue(positionType: PositionType)
    | LengthValue(length: Val)
    | RectValue(rect: UiRect)

  /** Reads field `f` of `n`. */
  function Field(n: Node, f: NodeField): FieldValue
  {
    match f
    case Display => DisplayValue(n.display)
    case FlexDirection => FlexDirectionValue(n.flexDirection)
    case GridAutoFlow => GridAutoFlowValue(n.gridAutoFlow)
    case JustifyContent => JustifyContentValue(n.justifyContent)
    case AlignItems => AlignItemsValue(n.alignItems)
    case FlexWrap => FlexWrapValue(n.flexWrap)
    case RowGap => LengthValue(n.rowGap)
    case ColumnGap => LengthValue(n.columnGap)
    case Padding => RectValue(n.padding)
    case Width => LengthValue(n.width)
    case Height => LengthValue(n.height)
    case Border => RectValue(n.border)
    case PositionType => PositionTypeValue(n.positionType)
    case Top => LengthValue(n.top)
    case Left => LengthValue(n.left)
    case Right => LengthValue(n.right)
    case Bottom => LengthValue(n.bottom)
  }

  /** `a` and `b` agree on every field not named in `fs`. */
  predicate SameExcept(a: Node, b: Node, fs: set<NodeField>)
  {
    forall f :: f !in fs ==> Field(a, f) == Field(b, f)
  }

  /** An sRGBA colour; the builders take `impl Into<Color>` and only store the result. */
  datatype Color = Srgba(red: F32, green: F32, blue: F32, alpha: F32)

  /** `Srgba::NONE`: fully transparent. */
  const NONE: Color := Srgba(0.0, 0.0, 0.0, 0.0)

  /** `Srgba::WHITE`. */
  const WHITE: Color := Srgba(1.0, 1.0, 1.0, 1.0)

  /** `BorderRadius`: one length per corner. */
  datatype BorderRadius = BorderRadius(topLeft: Val, topRight: Val, bottomLeft: Val, bottomRight: Val)

  /** `BorderRadius::ZERO`. */
  const RADIUS_ZERO: BorderRadius := BorderRadius(ZERO, ZERO, ZERO, ZERO)

  /** The identity of a loaded asset. */
  type AssetId(==)

  /** `Handle<Image>` or `Handle<Font>`: either `Handle::default()` or a loaded asset. */
  datatype Handle = DefaultHandle | Asset(id: AssetId)

  type TextureSlicer(==)

  /** `NodeImageMode`: how an image fills its node. */
  datatype NodeImageMode = Auto | Stretch | Sliced(slicer: TextureSlicer)
                         | Tiled(tileX: bool, tileY: bool, stretchValue: F32)

  /** `ImageNode`, without its texture atlas and source rectangle. */
  datatype ImageNode = ImageNode(color: Color, image: Handle, flipX: bool, flipY: bool,
                                 imageMode: NodeImageMode)

  /** `ImageNode::default()`: white tint, default handle, no flips, `NodeImageMode::Auto`. */
  const IMAGE_NODE_DEFAULT: ImageNode :=
    ImageNode(WHITE, DefaultHandle, false, false, NodeImageMode.Auto)

  /** One entry of a `BoxShadow` list. */
  type ShadowStyle(==)

  datatype Vec2 = Vec2(x: F32, y: F32)

  /** `TextShadow`. */
  datatype TextShadow = TextShadow(offset: Vec2, color: Color)

  type LineHeight(==)
  type FontSmoothing(==)

  /** `TextFont`. */
  datatype TextFont = TextFont(font: Handle, fontSize: F32, lineHeight: LineHeight,
                               fontSmoothing: FontSmoothing)
}
