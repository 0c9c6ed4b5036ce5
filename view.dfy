/** A view as a value: the fields every view struct of the crate holds, the builder calls
    that can be chained on it, and what a chain of calls does. A Rust builder takes `self` by
    value and returns it, so a chain `v.a(..).b(..)` is `ApplyAll(v, [a, b])`. */
module Views {
  import opened Bevy
  import Base
  import Stacks
  import Grids
  import Positions
  import Shadows
  import Borders
  import Backgrounds
  import Texts

  datatype Option<T> = None | Some(value: T)

  /** The fields of HStack, VStack, HGrid, VGrid, SwoopText and TextButton. The text style and
      the text shadow exist only in the views that carry them. */
  datatype ViewState = ViewState(
    name: string,
    node: Node,
    border: Borders.BorderStyle,
    background: Backgrounds.BackgroundStyle,
    boxShadow: Shadows.BoxShadow,
    text: Option<Texts.TextStyle>,
    textShadow: Option<TextShadow>)

  /** One builder call, grouped by the trait that declares it. Text calls are not included:
      they apply only to views that carry a text style. */
  datatype Call =
    | Name(name: string)
    | UiBaseCall(base: Base.Call)
    | StackCall(stack: Stacks.Call)
    | GridCall(grid: Grids.Call)
    | PositionCall(position: Positions.Call)
    | BorderCall(border: Borders.Call)
    | BackgroundCall(background: Backgrounds.Call)
    | ShadowCall(shadow: Shadows.Call)

  /** One builder call: the view after it, given the view before it. */
  function Apply(v: ViewState, c: Call): ViewState
  {
    match c
    case Name(s) => v.(name := s)
    case UiBaseCall(bc) => v.(node := Base.Apply(v.node, bc))
    case StackCall(sc) => v.(node := Stacks.Apply(v.node, sc))
    case GridCall(gc) => v.(node := Grids.Apply(v.node, gc))
    case PositionCall(pc) => v.(node := Positions.Apply(v.node, pc))
    case BorderCall(bc) =>
      var nb := Borders.Apply(v.node, v.border, bc);
      v.(node := nb.0, border := nb.1)
    case BackgroundCall(bc) => v.(background := Backgrounds.Apply(v.background, bc))
    case ShadowCall(sc) => v.(boxShadow := Shadows.Apply(v.boxShadow, sc))
  }

  /** No call changes the flex axis or the grid flow family, every positioning call leaves
      the view absolutely positioned, no call turns absolute positioning off, and no call
      touches the text fragments. */
  lemma ApplyKeeps(v: ViewState, c: Call)
    ensures Stacks.IsRowAxis(Apply(v, c).node.flexDirection) == Stacks.IsRowAxis(v.node.flexDirection)
    ensures Grids.IsRowFlow(Apply(v, c).node.gridAutoFlow) == Grids.IsRowFlow(v.node.gridAutoFlow)
    ensures c.PositionCall? ==> Apply(v, c).node.positionType == PositionType.Absolute
    ensures v.node.positionType == PositionType.Absolute ==>
      Apply(v, c).node.positionType == PositionType.Absolute
    ensures Apply(v, c).text == v.text && Apply(v, c).textShadow == v.textShadow
  {
    match c
    case StackCall(sc) =>
    case GridCall(gc) =>
    case PositionCall(pc) =>
    case _ =>
  }

  /** The width, height and padding after one call. */
  lemma ApplySizes(v: ViewState, c: Call)
    ensures Apply(v, c).node.width ==
      match c case UiBaseCall(Width(w)) => w case UiBaseCall(Frame(w, _)) => w case _ => v.node.width
    ensures Apply(v, c).node.height ==
      match c case UiBaseCall(Height(h)) => h case UiBaseCall(Frame(_, h)) => h case _ => v.node.height
    ensures Apply(v, c).node.padding ==
      match c case UiBaseCall(Padding(p)) => p case _ => v.node.padding
  {
    match c
    case UiBaseCall(bc) =>
    case _ =>
  }

  /** Each call writes only what its trait's accessors hand out: `name` the name, the layout
      calls the Node, a border call the Node and the `BorderStyle`, a background call the
      background, a shadow call the shadow list. */
  lemma ApplyFrames(v: ViewState, c: Call)
    ensures Apply(v, c).name != v.name ==> c.Name?
    ensures Apply(v, c).node != v.node ==> !(c.Name? || c.BackgroundCall? || c.ShadowCall?)
    ensures Apply(v, c).border != v.border ==> c.BorderCall?
    ensures Apply(v, c).background != v.background ==> c.BackgroundCall?
    ensures Apply(v, c).boxShadow != v.boxShadow ==> c.ShadowCall?
  {
    match c
    case BorderCall(bc) =>
    case _ =>
  }

  /** A chain of builder calls, first call first. */
  function ApplyAll(v: ViewState, cs: seq<Call>): ViewState
    decreases |cs|
  {
    if cs == [] then v else ApplyAll(Apply(v, cs[0]), cs[1..])
  }

  /** Running two chains one after the other is running their concatenation. */
  lemma {:induction false} ApplyAllAppend(v: ViewState, cs: seq<Call>, ds: seq<Call>)
    ensures ApplyAll(v, cs + ds) == ApplyAll(ApplyAll(v, cs), ds)
    decreases |cs|
  {
    if cs == [] {
      assert cs + ds == ds;
    } else {
      assert (cs + ds)[0] == cs[0] && (cs + ds)[1..] == cs[1..] + ds;
      ApplyAllAppend(Apply(v, cs[0]), cs[1..], ds);
    }
  }

  /** The flex axis and the grid flow family are fixed for the life of a view: no chain of
      calls moves a view from the row family to the column family or back. So `spacing`
      always writes the same gap field of a given view. */
  lemma {:induction false} AxesAreKept(v: ViewState, cs: seq<Call>)
    ensures Stacks.IsRowAxis(ApplyAll(v, cs).node.flexDirection) == Stacks.IsRowAxis(v.node.flexDirection)
    ensures Grids.IsRowFlow(ApplyAll(v, cs).node.gridAutoFlow) == Grids.IsRowFlow(v.node.gridAutoFlow)
    decreases |cs|
  {
    if cs != [] {
      ApplyKeeps(v, cs[0]);
      AxesAreKept(Apply(v, cs[0]), cs[1..]);
    }
  }

  /** A chain without a call of a trait leaves that trait's fields as they were: the name
      without `name`, the border style without border calls, the background without
      background calls, the shadow list without shadow calls. */
  lemma {:induction false} UntouchedWithoutItsCalls(v: ViewState, cs: seq<Call>)
    ensures (forall i :: 0 <= i < |cs| ==> !cs[i].Name?) ==> ApplyAll(v, cs).name == v.name
    ensures (forall i :: 0 <= i < |cs| ==> !cs[i].BorderCall?) ==> ApplyAll(v, cs).border == v.border
    ensures (forall i :: 0 <= i < |cs| ==> !cs[i].BackgroundCall?) ==>
      ApplyAll(v, cs).background == v.background
    ensures (forall i :: 0 <= i < |cs| ==> !cs[i].ShadowCall?) ==> ApplyAll(v, cs).boxShadow == v.boxShadow
    decreases |cs|
  {
    if cs != [] {
      ApplyFrames(v, cs[0]);
      UntouchedWithoutItsCalls(Apply(v, cs[0]), cs[1..]);
      assert forall i :: 0 <= i < |cs| - 1 ==> cs[1..][i] == cs[i + 1];
    }
  }

  /** Once absolutely positioned, a view stays absolutely positioned. */
  lemma {:induction false} AbsoluteIsKept(v: ViewState, cs: seq<Call>)
    requires v.node.positionType == PositionType.Absolute
    ensures ApplyAll(v, cs).node.positionType == PositionType.Absolute
    decreases |cs|
  {
    if cs != [] {
      ApplyKeeps(v, cs[0]);
      AbsoluteIsKept(Apply(v, cs[0]), cs[1..]);
    }
  }

  /** A chain with a positioning call anywhere in it ends absolutely positioned. */
  lemma PositioningMakesAbsolute(v: ViewState, cs: seq<Call>, i: nat)
    requires i < |cs| && cs[i].PositionCall?
    ensures ApplyAll(v, cs).node.positionType == PositionType.Absolute
  {
    assert cs == cs[..i + 1] + cs[i + 1..];
    ApplyAllAppend(v, cs[..i + 1], cs[i + 1..]);
    assert cs[..i + 1] == cs[..i] + [cs[i]];
    ApplyAllAppend(v, cs[..i], [cs[i]]);
    ApplyKeeps(ApplyAll(v, cs[..i]), cs[i]);
    AbsoluteIsKept(ApplyAll(v, cs[..i + 1]), cs[i + 1..]);
  }

  /** The width given by the last `width` or `frame` call of a chain, if any. */
  function LastWidth(cs: seq<Call>, initial: Val): Val
    decreases |cs|
  {
    if cs == [] then initial
    else match cs[|cs| - 1]
      case UiBaseCall(Width(w)) => w
      case UiBaseCall(Frame(w, _)) => w
      case _ => LastWidth(cs[..|cs| - 1], initial)
  }

  /** The height given by the last `height` or `frame` call of a chain, if any. */
  function LastHeight(cs: seq<Call>, initial: Val): Val
    decreases |cs|
  {
    if cs == [] then initial
    else match cs[|cs| - 1]
      case UiBaseCall(Height(h)) => h
      case UiBaseCall(Frame(_, h)) => h
      case _ => LastHeight(cs[..|cs| - 1], initial)
  }

  /** The padding given by the last `padding` call of a chain, if any. */
  function LastPadding(cs: seq<Call>, initial: UiRect): UiRect
    decreases |cs|
  {
    if cs == [] then initial
    else match cs[|cs| - 1]
      case UiBaseCall(Padding(p)) => p
      case _ => LastPadding(cs[..|cs| - 1], initial)
  }

  /** For width, height and padding the last write of a chain wins, whatever came between. */
  lemma {:induction false} LastWriteWins(v: ViewState, cs: seq<Call>)
    ensures ApplyAll(v, cs).node.width == LastWidth(cs, v.node.width)
    ensures ApplyAll(v, cs).node.height == LastHeight(cs, v.node.height)
    ensures ApplyAll(v, cs).node.padding == LastPadding(cs, v.node.padding)
    decreases |cs|
  {
    if cs != [] {
      var init, last := cs[..|cs| - 1], cs[|cs| - 1];
      assert cs == init + [last];
      ApplyAllAppend(v, init, [last]);
      LastWriteWins(v, init);
      ApplySizes(ApplyAll(v, init), last);
    }
  }

  /** `add_shadow(x)` once for every `x` of `xs`, in order. */
  function AddShadowCalls(xs: seq<ShadowStyle>): (cs: seq<Call>)
    ensures |cs| == |xs|
    ensures forall i :: 0 <= i < |xs| ==> cs[i] == ShadowCall(Shadows.Call.AddShadow(xs[i]))
  {
    if xs == [] then [] else [ShadowCall(Shadows.Call.AddShadow(xs[0]))] + AddShadowCalls(xs[1..])
  }

  /** Adding shadows one by one appends them, in order, and changes nothing else. */
  lemma {:induction false} AddShadowsAppend(v: ViewState, xs: seq<ShadowStyle>)
    ensures ApplyAll(v, AddShadowCalls(xs)) == v.(boxShadow := v.boxShadow + xs)
    decreases |xs|
  {
    if xs != [] {
      var cs := AddShadowCalls(xs);
      var v1 := Apply(v, ShadowCall(Shadows.Call.AddShadow(xs[0])));
      assert v1 == v.(boxShadow := v.boxShadow + [xs[0]]);
      assert cs[0] == ShadowCall(Shadows.Call.AddShadow(xs[0])) && cs[1..] == AddShadowCalls(xs[1..]);
      assert ApplyAll(v, cs) == ApplyAll(v1, AddShadowCalls(xs[1..]));
      AddShadowsAppend(v1, xs[1..]);
      assert v.boxShadow + [xs[0]] + xs[1..] == v.boxShadow + xs;
    }
  }

  /** `shadow(xs)` followed by `add_shadow` of each of `ys` is `shadow(xs + ys)`. */
  lemma ShadowThenAddShadows(v: ViewState, xs: seq<ShadowStyle>, ys: seq<ShadowStyle>)
    ensures ApplyAll(v, [ShadowCall(Shadows.Call.Shadow(xs))] + AddShadowCalls(ys))
         == Apply(v, ShadowCall(Shadows.Call.Shadow(xs + ys)))
  {
    ApplyAllAppend(v, [ShadowCall(Shadows.Call.Shadow(xs))], AddShadowCalls(ys));
    AddShadowsAppend(Apply(v, ShadowCall(Shadows.Call.Shadow(xs))), ys);
  }
}
