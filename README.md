# swoop-ui builders in Dafny

swoop-ui is a layout toolkit on top of Bevy UI. It gives four containers, `HStack`,
`VStack`, `HGrid` and `VGrid`, each with a `Default` of its own. It also gives a set of
builder traits whose methods take the view by value, assign one field in place, and return
the view:

- `UiBase`: name, padding and size.
- `StackContainer` and `GridContainer`: direction, wrap, alignment and gaps.
- `PositionView`: absolute offsets.
- `BorderView`, `BackgroundView`, `BoxShadowView` and `TextShadowView`: drawing.
- `TextView`: text and font.

This project models those builders and the container defaults, and proves what each builder
writes and what it leaves alone. It also proves what chains of builder calls do.

Layout of the model:

- `Bevy` (bevy.dfy) holds the host types the builders write.
  - `Node` holds the seventeen layout fields the crate touches. `NODE_DEFAULT` holds their
    Bevy defaults.
  - `Val`, `UiRect`, `Color`, `BorderRadius`, `Handle`, `ImageNode`, `TextShadow` and
    `TextFont` are modelled too.
  - `SameExcept(a, b, fs)` says that two Nodes agree on every field outside `fs`.
- One module per core source file holds the pure model of each builder. Each is a function
  from the old value to the new one, with lemmas about it:
  - `Base` models src/lib.rs.
  - `Stacks` models src/container/stack.rs.
  - `Grids` models src/container/grid.rs.
  - `Positions` models src/position.rs.
  - `Shadows` models src/shadow.rs.
  - `Borders` models src/border.rs.
  - `Backgrounds` models src/background.rs.
  - `Texts` models src/text.rs.
- `Views` (view.dfy) holds the fields a view struct carries as one value, `ViewState`.
  - A builder call is a `Call`, and `Apply` runs one call.
  - A Rust chain `v.a(..).b(..)` is `ApplyAll(v, [a, b])`.
  - The chain lemmas live here: the flex axis and grid flow family never change, absolute
    positioning is permanent, the last write wins for width, height and padding, and adding
    shadows appends them.
- `Builder` (builder.dfy) is the imperative layer. Class `View` has one field per view
  field, and one method per builder. Each method:
  - assigns its field in place through the same steps as the Rust body;
  - modifies only that field;
  - ensures the new field equals the pure model;
  - for every builder except the text and text-shadow ones, also ensures the new
    `Snapshot()` equals `Views.Apply` of the old one.

  So every chain lemma holds for any sequence of those method calls. The eight
  `TextView`/`TextShadowView` methods ensure only their new `text`/`textShadow` field. The
  "## Left out" line on text calls says why.
- `HStack`, `VStack`, `HGrid` and `VGrid` (h_stack.dfy … v_grid.dfy) hold each container's
  `Default()` as a `ViewState`, with lemmas about its layout, its `new` and its `spacing`.
  `HStack.MenuBar` builds the menu bar from the crate's introduction.

Where the documentation and the code disagree, the model follows the code:

- `HGrid` is documented as arranging its children with `GridAutoFlow::Row`, but its default
  sets `GridAutoFlow::Column` (src/container/grid/h_grid.rs:34). So `HGrid::new(a, g)`
  writes `g` to the row gap, and the column gap stays `Px(0)`.
- `VGrid` is documented with `Column` but sets `Row` (src/container/grid/v_grid.rs:34). So
  its `new` writes the column gap.

## Model

| member | source | states |
|---|---|---|
| Builder.View.SetName | src/lib.rs:55-61 | `name(n)`: the name becomes `n`; only the name field may change, so the Node is untouched; the new state is `Views.Apply` of a `Name` call |
| Views.ApplyFrames | src/lib.rs:55-61 | a `name` call is the only call that changes the name; the shadow, background and name calls leave the Node unchanged |
| Base.SetPadding | src/lib.rs:64-70 | `padding(p)`: padding becomes `p`, every other Node field is unchanged |
| Base.SetFrame | src/lib.rs:73-81 | `frame(w, h)`: width becomes `w`, height becomes `h`, no other Node field changes |
| Base.SetWidth | src/lib.rs:84-90 | `width(w)`: width becomes `w`; height and every other field are unchanged |
| Base.SetHeight | src/lib.rs:93-99 | `height(h)`: height becomes `h`; width and every other field are unchanged |
| Base.FrameIsWidthThenHeight | src/lib.rs:73-99 | `frame(w, h)` equals `width(w).height(h)` and equals `height(h).width(w)` |
| Base.LastWriteWins | src/lib.rs:64-99 | a second `width`, `height`, `padding` or `frame` call replaces the first; repeating a call is idempotent |
| Base.ApplyWrites | src/lib.rs:64-99 | each `UiBase` call writes width, height or padding as its arguments say and no other Node field |
| Builder.View.SetPadding | src/lib.rs:64-70 | the in-place assignment yields `Base.SetPadding` of the old Node |
| Builder.View.Frame | src/lib.rs:73-81 | assigning width then height in place yields `Base.SetFrame` of the old Node |
| Builder.View.SetWidth | src/lib.rs:84-90 | the in-place assignment yields `Base.SetWidth` of the old Node |
| Builder.View.SetHeight | src/lib.rs:93-99 | the in-place assignment yields `Base.SetHeight` of the old Node |
| Views.ApplySizes | src/lib.rs:64-99 | after any single call of any trait, width, height and padding are the call's arguments if it names them, otherwise unchanged |
| Views.LastWriteWins | src/lib.rs:64-99 | after any chain, width, height and padding are those of the last call that writes each (or the initial value if none does) |
| Stacks.ReversedDirection | src/container/stack.rs:26-31 | the reversed direction has the same axis and the opposite reversed flag |
| Stacks.ReversedDirectionIsDetermined | src/container/stack.rs:26-31 | the mapping is the only one with that property: Row↔RowReverse, Column↔ColumnReverse |
| Stacks.ReversedDirectionIsInvolution | src/container/stack.rs:26-31 | reversing a direction twice gives it back |
| Stacks.Reversed | src/container/stack.rs:24-35 | `reverse()` writes the mapped direction into `flex_direction`, keeps the axis, and changes no other field |
| Stacks.ReverseIsInvolution | src/container/stack.rs:24-35 | `reverse().reverse()` restores the Node |
| Stacks.SetWrap | src/container/stack.rs:38-41 | `wrap(w)` writes `flex_wrap` only |
| Stacks.SetJustifyContent | src/container/stack.rs:44-47 | `justify_content(j)` writes `justify_content` only |
| Stacks.SetAlignItems | src/container/stack.rs:50-53 | `align_items(a)` writes `align_items` only |
| Stacks.SetRowGap | src/container/stack.rs:56-59 | `row_gap(g)` writes `row_gap` only |
| Stacks.SetColumnGap | src/container/stack.rs:62-65 | `column_gap(g)` writes `column_gap` only |
| Stacks.Spaced | src/container/stack.rs:68-76 | `spacing(g)` writes `column_gap` on the row axis and `row_gap` on the column axis; the other gap and all other fields are unchanged |
| Stacks.SpacingCommutesWithReverse | src/container/stack.rs:24-76 | the direction mapping keeps the axis, and `spacing` picks the gap by axis, so `reverse().spacing(g)` equals `spacing(g).reverse()` |
| Stacks.New | src/container/stack.rs:17-21 | `new(a, g)` keeps the default's direction, sets `align_items = a`, and puts `g` in the gap of the default's axis; nothing else changes |
| Stacks.ApplyWrites | src/container/stack.rs:24-76 | no stack call changes the flex axis, and each writes only the flex fields it names |
| Builder.View.StackNew | src/container/stack.rs:17-21 | the constructor builds the default, assigns `align_items`, then runs `spacing`, giving `Stacks.New` of the default |
| Builder.View.StackReverse | src/container/stack.rs:24-35 | the pure direction mapping, then one assignment, yields `Stacks.Reversed` |
| Builder.View.SetWrap | src/container/stack.rs:38-41 | the assignment yields `Stacks.SetWrap` |
| Builder.View.SetJustifyContent | src/container/stack.rs:44-47 | with grid.rs:46-49, one assignment serves both traits: `Stacks.SetJustifyContent` and `Grids.SetJustifyContent` agree |
| Builder.View.SetAlignItems | src/container/stack.rs:50-53 | with grid.rs:52-55, one assignment serves both traits' `align_items` |
| Builder.View.SetRowGap | src/container/stack.rs:56-59 | with grid.rs:58-61, one assignment serves both traits' `row_gap` |
| Builder.View.SetColumnGap | src/container/stack.rs:62-65 | with grid.rs:64-67, one assignment serves both traits' `column_gap` |
| Builder.View.StackSpacing | src/container/stack.rs:68-76 | the in-place match on the direction yields `Stacks.Spaced` |
| Grids.ToggledFlow | src/container/grid.rs:28-33 | the toggled flow keeps the row/column family and flips dense |
| Grids.ToggledFlowIsDetermined | src/container/grid.rs:28-33 | the mapping is the only one with that property: Row↔RowDense, Column↔ColumnDense |
| Grids.ToggledFlowIsInvolution | src/container/grid.rs:28-33 | toggling twice gives the flow back |
| Grids.Reversed | src/container/grid.rs:26-37 | `reverse()` writes the toggled flow into `grid_auto_flow`, keeps the family, and changes no other field |
| Grids.ReverseIsInvolution | src/container/grid.rs:26-37 | `reverse().reverse()` restores the Node |
| Grids.SetJustifyContent | src/container/grid.rs:46-49 | `justify_content(j)` writes only `justify_content` |
| Grids.SetAlignItems | src/container/grid.rs:52-55 | `align_items(a)` writes only `align_items` |
| Grids.SetRowGap | src/container/grid.rs:58-61 | `row_gap(g)` writes only `row_gap` |
| Grids.SetColumnGap | src/container/grid.rs:64-67 | `column_gap(g)` writes only `column_gap` |
| Grids.Spaced | src/container/grid.rs:70-78 | `spacing(g)` writes `column_gap` for Row/RowDense and `row_gap` for Column/ColumnDense; all else unchanged |
| Grids.SpacingCommutesWithReverse | src/container/grid.rs:26-78 | the flow mapping keeps the family, and `spacing` picks the gap by family, so `reverse().spacing(g)` equals `spacing(g).reverse()` |
| Grids.New | src/container/grid.rs:19-23 | `new(a, g)` keeps the default's flow, sets `align_items = a`, puts `g` in the gap of the flow's family |
| Grids.ApplyWrites | src/container/grid.rs:26-78 | no grid call changes the flow family; each writes only the grid fields it names |
| Builder.View.GridNew | src/container/grid.rs:19-23 | the constructor's steps give `Grids.New` of the default |
| Builder.View.GridReverse | src/container/grid.rs:26-37 | mapping then assignment yields `Grids.Reversed` |
| Builder.View.GridSpacing | src/container/grid.rs:70-78 | the in-place match on the flow yields `Grids.Spaced` |
| Views.ApplyKeeps | src/position.rs:11-62 | with the stack and grid builders (stack.rs:24-76, grid.rs:26-78): no call of any trait changes the flex axis or the flow family; a positioning call always leaves the view absolute; no call turns absolute off; no call touches the text fields |
| Views.AxesAreKept | src/container/stack.rs:68-76 | with grid.rs:70-78: after any chain of calls the flex axis and the flow family are those of the start, so `spacing` keeps writing the same gap |
| HStack.DefaultLayout | src/container/stack/h_stack.rs:29-44 | the default is named "HStack"; it is Flex with direction Row (row axis, not reversed), justify Start, align Center, both gaps `Px(0)` and Relative; it has the default `BorderStyle` (radius ZERO, transparent) and the default background (transparent, default image node), no shadows and no text fields |
| HStack.NewStoresColumnGap | src/container/stack/h_stack.rs:34-37 | through `new` (stack.rs:17-21), `HStack::new(a, g)` puts `g` in `column_gap`, keeps `row_gap` at `Px(0)`, and sets `align_items = a` |
| HStack.SpacingAlwaysWritesColumnGap | src/container/stack/h_stack.rs:34 | with `spacing` (stack.rs:68-76): after any chain from the default, `spacing(g)` writes `column_gap` and nothing else |
| HStack.MenuBar | src/lib.rs:14-19 | the introduction's menu bar is the whole HStack default except three fields: `align_items` Start, an automatic column gap and a white background colour. Border, background image, shadows and text fields stay at the default |
| VStack.DefaultLayout | src/container/stack/v_stack.rs:28-43 | the default is named "VStack"; it is Flex with direction Column, justify Start, align Center, both gaps `Px(0)` and Relative; it has the default `BorderStyle` (radius ZERO, transparent) and the default background (transparent, default image node), no shadows and no text fields |
| VStack.NewStoresRowGap | src/container/stack/v_stack.rs:33-36 | through `new` (stack.rs:17-21), `VStack::new(a, g)` puts `g` in `row_gap` and keeps `column_gap` at `Px(0)` |
| VStack.SpacingAlwaysWritesRowGap | src/container/stack/v_stack.rs:33 | with `spacing` (stack.rs:68-76): after any chain from the default, `spacing(g)` writes `row_gap` and nothing else |
| HGrid.DefaultLayout | src/container/grid/h_grid.rs:29-44 | the default is named "HGrid"; it is Grid with auto flow Column (column family, not dense), justify Start, align Center, both gaps `Px(0)` and Relative; it has the default `BorderStyle` and background (transparent, default image node), no shadows and no text fields |
| HGrid.NewStoresRowGap | src/container/grid/h_grid.rs:34-37 | through `new` (grid.rs:19-23), `HGrid::new(a, g)` writes `g` to `row_gap`, and `column_gap` stays `Px(0)` |
| HGrid.SpacingAlwaysWritesRowGap | src/container/grid/h_grid.rs:34 | with `spacing` (grid.rs:70-78): after any chain from the default, `spacing(g)` writes `row_gap` and nothing else |
| VGrid.DefaultLayout | src/container/grid/v_grid.rs:29-44 | the default is named "VGrid"; it is Grid with auto flow Row, justify Start, align Center, both gaps `Px(0)` and Relative; it has the default `BorderStyle` and background (transparent, default image node), no shadows and no text fields |
| VGrid.NewStoresColumnGap | src/container/grid/v_grid.rs:34-37 | through `new` (grid.rs:19-23), `VGrid::new(a, g)` writes `g` to `column_gap`, and `row_gap` stays `Px(0)` |
| VGrid.SpacingAlwaysWritesColumnGap | src/container/grid/v_grid.rs:34 | with `spacing` (grid.rs:70-78): after any chain from the default, `spacing(g)` writes `column_gap` and nothing else |
| Positions.SetTop | src/position.rs:11-16 | `top(y)`: Absolute and `top = y`; the other offsets and all other fields are unchanged |
| Positions.SetLeft | src/position.rs:22-27 | `left(x)`: Absolute and `left = x`; the rest unchanged |
| Positions.SetRight | src/position.rs:33-38 | `right(x)`: Absolute and `right = x`; the rest unchanged |
| Positions.SetBottom | src/position.rs:44-49 | `bottom(y)`: Absolute and `bottom = y`; the rest unchanged |
| Positions.SetPosition | src/position.rs:56-62 | `position(x, y)`: Absolute, `left = x`, `top = y`; the rest unchanged |
| Positions.PositionIsLeftThenTop | src/position.rs:56-62 | `position(x, y)` equals `left(x).top(y)` and `top(y).left(x)` |
| Positions.OffsetSettersAreIdempotent | src/position.rs:11-49 | calling an offset setter twice with the same value equals calling it once |
| Positions.ApplyWrites | src/position.rs:11-62 | every positioning call leaves the Node Absolute and writes only the position type and the offsets |
| Views.AbsoluteIsKept | src/position.rs:11-62 | no builder of any trait assigns `Relative`, and every positioning builder assigns `Absolute`, so from an absolute view, every chain ends absolute |
| Views.PositioningMakesAbsolute | src/position.rs:11-62 | a chain with a positioning call anywhere in it ends absolute, whatever the position type before it |
| Builder.View.SetTop | src/position.rs:11-16 | the two in-place assignments yield `Positions.SetTop` |
| Builder.View.SetLeft | src/position.rs:22-27 | the two assignments yield `Positions.SetLeft` |
| Builder.View.SetRight | src/position.rs:33-38 | the two assignments yield `Positions.SetRight` |
| Builder.View.SetBottom | src/position.rs:44-49 | the two assignments yield `Positions.SetBottom` |
| Builder.View.Position | src/position.rs:56-62 | the three assignments yield `Positions.SetPosition` |
| Shadows.PushShadow | src/shadow.rs:19-22 | `add_shadow(s)`: one longer, the old list is the prefix and `s` is last |
| Shadows.SetTextShadowOffset | src/shadow.rs:42-45 | `text_shadow_offset(o)` writes the offset; the colour stays |
| Shadows.SetTextShadowColor | src/shadow.rs:56-59 | `text_shadow_color(c)` writes the colour; the offset stays |
| Shadows.TextShadowSettersCommute | src/shadow.rs:42-59 | the two text-shadow setters commute, and a second call of either replaces the first |
| Builder.View.SetShadows | src/shadow.rs:13-16 | `shadow(xs)`: the list becomes exactly `xs` |
| Builder.View.AddShadow | src/shadow.rs:19-22 | pushing in place yields `Shadows.PushShadow` of the old list |
| Builder.View.SetTextShadowOffset | src/shadow.rs:42-45 | for a view that has a text shadow, the assignment yields `Shadows.SetTextShadowOffset` |
| Builder.View.SetTextShadowColor | src/shadow.rs:56-59 | for a view that has a text shadow, the assignment yields `Shadows.SetTextShadowColor` |
| Views.AddShadowsAppend | src/shadow.rs:19-22 | `add_shadow` of each of `xs` in turn appends `xs` in order and changes nothing else |
| Views.ShadowThenAddShadows | src/shadow.rs:13-22 | `shadow(xs)` then `add_shadow` of each of `ys` equals `shadow(xs + ys)` |
| Views.UntouchedWithoutItsCalls | src/shadow.rs:8-23 | with border.rs:8-29, background.rs:10-34 and lib.rs:55-61: a chain with no call of a trait leaves that trait's field as it was: the name, the border style, the background, the shadow list |
| Borders.DefaultIsSquareAndTransparent | src/border.rs:40-46 | the default `BorderStyle` has radius ZERO and the transparent colour (alpha 0) |
| Borders.SetBorder | src/border.rs:13-16 | `border(r)` writes the Node's border widths and no other Node field |
| Borders.SetBorderColor | src/border.rs:19-22 | `border_color(c)` writes the colour; the radius stays |
| Borders.SetBorderRadius | src/border.rs:25-28 | `border_radius(r)` writes the radius; the colour stays |
| Borders.StyleSettersCommute | src/border.rs:19-28 | colour and radius setters commute, and a second call of either replaces the first |
| Borders.ApplyWrites | src/border.rs:13-28 | in the Node, a border call writes at most the border widths |
| Builder.View.SetBorder | src/border.rs:13-16 | the assignment writes `node` (not the border style) and yields `Borders.SetBorder` |
| Builder.View.SetBorderColor | src/border.rs:19-22 | the assignment yields `Borders.SetBorderColor` |
| Builder.View.SetBorderRadius | src/border.rs:25-28 | the assignment yields `Borders.SetBorderRadius` |
| Backgrounds.ButtonIsWhiteDefault | src/background.rs:36-51 | `button()` has a white colour and the default image node: it is the default with the colour changed to white, and it differs from the default |
| Backgrounds.SetBackgroundColor | src/background.rs:15-18 | `background_color(c)` writes the colour; the image node stays |
| Backgrounds.SetBackgroundImage | src/background.rs:21-27 | `background_image(h)` replaces the whole image node with the default one holding `h`, so the mode is `Auto`; the colour stays |
| Backgrounds.SetBackgroundImageMode | src/background.rs:30-33 | `background_image_mode(m)` writes only the mode; the handle, the rest of the image node and the colour stay |
| Backgrounds.ModeBeforeImageIsLost | src/background.rs:21-33 | `image_mode(m).image(h)` equals `image(h)`: the mode is lost |
| Backgrounds.ModeAfterImageIsKept | src/background.rs:21-33 | `image(h).image_mode(m)` keeps both `h` and `m` |
| Backgrounds.ImageAndModeOrderMatters | src/background.rs:21-33 | for every mode other than `Auto` the two orders give different backgrounds |
| Builder.View.SetBackgroundColor | src/background.rs:15-18 | the assignment yields `Backgrounds.SetBackgroundColor` |
| Builder.View.SetBackgroundImage | src/background.rs:21-27 | the assignment yields `Backgrounds.SetBackgroundImage` |
| Builder.View.SetBackgroundImageMode | src/background.rs:30-33 | the assignment yields `Backgrounds.SetBackgroundImageMode` |
| Texts.SetText | src/text.rs:37-40 | `text(s)` writes the content; colour and font stay |
| Texts.SetTextColor | src/text.rs:46-49 | `text_color(c)` writes the colour; content and font stay |
| Texts.SetFont | src/text.rs:55-58 | `font(h)` writes `font.font`; size, line height, smoothing, content and colour stay |
| Texts.SetFontSize | src/text.rs:64-67 | `font_size(n)` writes `font.font_size` only |
| Texts.SetLineHeight | src/text.rs:73-76 | `line_height(l)` writes `font.line_height` only |
| Texts.SetFontSmoothing | src/text.rs:82-85 | `font_smoothing(f)` writes `font.font_smoothing` only |
| Texts.SettersOfDifferentPartsCommute | src/text.rs:37-85 | any two of the six setters (all fifteen pairs) write different parts of the style, so they can be chained in either order |
| Texts.LastWriteWins | src/text.rs:37-85 | a second call of any of the six text setters replaces the first |
| Builder.View.SetText | src/text.rs:37-40 | for a view that has a text style, the assignment yields `Texts.SetText` |
| Builder.View.SetTextColor | src/text.rs:46-49 | for a view that has a text style, the assignment yields `Texts.SetTextColor` |
| Builder.View.SetFont | src/text.rs:55-58 | for a view that has a text style, the assignment yields `Texts.SetFont` |
| Builder.View.SetFontSize | src/text.rs:64-67 | for a view that has a text style, the assignment yields `Texts.SetFontSize` |
| Builder.View.SetLineHeight | src/text.rs:73-76 | for a view that has a text style, the assignment yields `Texts.SetLineHeight` |
| Builder.View.SetFontSmoothing | src/text.rs:82-85 | for a view that has a text style, the assignment yields `Texts.SetFontSmoothing` |
| Builder.View.constructor | src/container/stack.rs:18 | `Self::default()`: a view built from a container's default fields has exactly those fields |

## Left out

- `UiToBundle::pack`, `#[derive(Bundle)]` and `children!` are not modelled. They assemble Bevy entity bundles, which is ECS plumbing with nothing to state about the builders.
- `SwoopUiPlugin::build` is not modelled: its body is `todo!()`.
- The button views, `SwoopText` and the module files `button.rs` and `container.rs` are not part of this model:
  - the buttons are bundles with Bevy's `Button` marker, and their defaults call `BorderStyle::button()` and `TextStyle::button()`, which the crate does not define in the files modelled here;
  - `SwoopText`'s default is Bevy defaults only;
  - `button.rs` and `container.rs` only declare modules and re-export names.
- `grid_auto_track` and `grid_template_track` are not modelled: the trait declares them with no body and no container implements them in the files modelled here.
- The meaning of Bevy's values is not modelled: layout solving, text shaping, rendering, colour spaces and the `Into<Color>` conversion. `ShadowStyle`, `LineHeight`, `FontSmoothing`, `TextureSlicer` and asset ids are opaque. A colour is four stored components. `f32` (font size, `Val::Px`, shadow offsets) is `real`, only stored and compared, never computed with.
- The Bevy defaults the crate relies on are written out in module `Bevy` as Bevy documents them. They come from Bevy, not from this crate: `Node::default()` for the fields the crate writes, `ImageNode::default()`, and transparent `BackgroundColor`/`BorderColor`.
- `Node` carries only the fields the builders write. Bevy's other fields (margins, flex grow and shrink, grid templates, overflow, …) are left out.
- `ImageNode` carries colour, image, flips and mode. Its texture atlas and rect are left out, because no builder writes them.
- `Name::set` takes a `Cow<str>`; the model stores a `string`.
- Which traits each view implements is not enforced per container. For example, `VStack` implements no positioning trait, and its shadow trait is named `ShadowView` where the others use `BoxShadowView`. One class `Builder.View` offers every builder, and the text and text-shadow builders require the view to carry those fields.
- Text and text-shadow calls are not part of the `Views.Call` chain, because only views that carry those fields accept them. Their chain behaviour is stated pairwise instead, in `Texts.SettersOfDifferentPartsCommute`, `Texts.LastWriteWins` and `Shadows.TextShadowSettersCommute`.
- The documented flow of `HGrid` (Row) and `VGrid` (Column) is not what the code sets. The model follows the code: `HGrid` uses Column and `VGrid` uses Row.
- Rust's move semantics (`mut self` taken by value and returned) appear as a state change of one object. No aliasing between views arises in the source, and none is modelled.
