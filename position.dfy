/** `PositionView`: absolute positioning. Every builder switches the node to absolute
    positioning and writes its own offsets. */
module Positions {
  import opened Bevy

  /** `top(y)`. */
  function SetTop(n: Node, y: Val): (r: Node)
    ensures r.positionType == PositionType.Absolute && r.top == y
    ensures SameExcept(n, r, {NodeField.PositionType, NodeField.Top})
  {
    var n1 := n.(positionType := PositionType.Absolute);
    n1.(top := y)
  }

  /** `left(x)`. */
  function SetLeft(n: Node, x: Val): (r: Node)
    ensures r.positionType == PositionType.Absolute && r.left == x
    ensures SameExcept(n, r, {NodeField.PositionType, NodeField.Left})
  {
    var n1 := n.(positionType := PositionType.Absolute);
    n1.(left := x)
  }

  /** `right(x)`. */
  function SetRight(n: Node, x: Val): (r: Node)
    ensures r.positionType == PositionType.Absolute && r.right == x
    ensures SameExcept(n, r, {NodeField.PositionType, NodeField.Right})
  {
    var n1 := n.(positionType := PositionType.Absolute);
    n1.(right := x)
  }

  /** `bottom(y)`. */
  function SetBottom(n: Node, y: Val): (r: Node)
    ensures r.positionType == PositionType.Absolute && r.bottom == y
    ensures SameExcept(n, r, {NodeField.PositionType, NodeField.Bottom})
  {
    var n1 := n.(positionType := PositionType.Absolute);
    n1.(bottom := y)
  }

  /** `position(x, y)`: the left and top offsets together. */
  function SetPosition(n: Node, x: Val, y: Val): (r: Node)
    ensures r.positionType == PositionType.Absolute && r.left == x && r.top == y
    ensures SameExcept(n, r, {NodeField.PositionType, NodeField.Left, NodeField.Top})
  {
    var n1 := n.(positionType := PositionType.Absolute);
    var n2 := n1.(left := x);
    n2.(top := y)
  }

  /** `position(x, y)` is `left(x).top(y)`, and also `top(y).left(x)`. */
  lemma PositionIsLeftThenTop(n: Node, x: Val, y: Val)
    ensures SetPosition(n, x, y) == SetTop(SetLeft(n, x), y)
    ensures SetPosition(n, x, y) == SetLeft(SetTop(n, y), x)
  {
  }

  /** Repeating an offset setter changes nothing more. */
  lemma OffsetSettersAreIdempotent(n: Node, v: Val)
    ensures SetTop(SetTop(n, v), v) == SetTop(n, v)
    ensures SetLeft(SetLeft(n, v), v) == SetLeft(n, v)
    ensures SetRight(SetRight(n, v), v) == SetRight(n, v)
    ensures SetBottom(SetBottom(n, v), v) == SetBottom(n, v)
  {
  }

  /** The calls of `PositionView`. */
  datatype Call = Top(y: Val) | Left(x: Val) | Right(x: Val) | Bottom(y: Val) | Position(x: Val, y: Val)

  function Apply(n: Node, c: Call): Node
  {
    match c
    case Top(y) => SetTop(n, y)
    case Left(x) => SetLeft(n, x)
    case Right(x) => SetRight(n, x)
    case Bottom(y) => SetBottom(n, y)
    case Position(x, y) => SetPosition(n, x, y)
  }

  /** Every positioning call leaves the node absolutely positioned and writes only offsets. */
  lemma ApplyWrites(n: Node, c: Call)
    ensures Apply(n, c).positionType == PositionType.Absolute
    ensures SameExcept(n, Apply(n, c), {NodeField.PositionType, NodeField.Top, NodeField.Left,
      NodeField.Right, NodeField.Bottom})
  {
  }
}
