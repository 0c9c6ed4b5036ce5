/** The `UiBase` setters shared by every view: they write the layout `Node` that the view
    hands out through `node_node()`. Each function takes the node before the call and gives
    the node after it. */
module Base {
  import opened Bevy

  /** `padding(p)`: sets the padding and nothing else. */
  function SetPadding(n: Node, p: UiRect): (r: Node)
    ensures r.padding == p
    ensures SameExcept(n, r, {NodeField.Padding})
  {
    n.(padding := p)
  }

  /** `frame(w, h)`: assigns the width, then the height. */
  function SetFrame(n: Node, w: Val, h: Val): (r: Node)
    ensures r.width == w && r.height == h
    ensures SameExcept(n, r, {NodeField.Width, NodeField.Height})
  {
    var n1 := n.(width := w);
    n1.(height := h)
  }

  /** `width(w)`: sets the width; the height and everything else stay. */
  function SetWidth(n: Node, w: Val): (r: Node)
    ensures r.width == w
    ensures SameExcept(n, r, {NodeField.Width})
  {
    n.(width := w)
  }

  /** `height(h)`: sets the height; the width and everything else stay. */
  function SetHeight(n: Node, h: Val): (r: Node)
    ensures r.height == h
    ensures SameExcept(n, r, {NodeField.Height})
  {
    n.(height := h)
  }

  /** `frame(w, h)` is `width(w).height(h)`, and also `height(h).width(w)`. */
  lemma FrameIsWidthThenHeight(n: Node, w: Val, h: Val)
    ensures SetFrame(n, w, h) == SetHeight(SetWidth(n, w), h)
    ensures SetFrame(n, w, h) == SetWidth(SetHeight(n, h), w)
  {
  }

  /** For width, height and padding the last write wins, so repeating a call changes nothing. */
  lemma LastWriteWins(n: Node, w1: Val, w2: Val, h1: Val, h2: Val, p1: UiRect, p2: UiRect)
    ensures SetWidth(SetWidth(n, w1), w2) == SetWidth(n, w2)
    ensures SetHeight(SetHeight(n, h1), h2) == SetHeight(n, h2)
    ensures SetPadding(SetPadding(n, p1), p2) == SetPadding(n, p2)
    ensures SetFrame(SetFrame(n, w1, h1), w2, h2) == SetFrame(n, w2, h2)
  {
  }

  /** The `UiBase` calls that write the Node. */
  datatype Call = Padding(padding: UiRect) | Frame(width: Val, height: Val) | Width(width: Val)
                | Height(height: Val)

  function Apply(n: Node, c: Call): Node
  {
    match c
    case Padding(p) => SetPadding(n, p)
    case Frame(w, h) => SetFrame(n, w, h)
    case Width(w) => SetWidth(n, w)
    case Height(h) => SetHeight(n, h)
  }

  /** Only width, height and padding change, each to the value of the call that names it. */
  lemma ApplyWrites(n: Node, c: Call)
    ensures Apply(n, c).width == match c case Width(w) => w case Frame(w, _) => w case _ => n.width
    ensures Apply(n, c).height == match c case Height(h) => h case Frame(_, h) => h case _ => n.height
    ensures Apply(n, c).padding == match c case Padding(p) => p case _ => n.padding
    ensures SameExcept(n, Apply(n, c), {NodeField.Width, NodeField.Height, NodeField.Padding})
  {
  }
}
