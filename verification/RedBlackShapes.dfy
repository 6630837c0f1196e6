/**
 * The values that describe a linked red-black tree: the tree of its nodes, and a path from a node up to
 * the root. `Linked` and `LinkedCtx` say that the fields of the nodes agree with them.
 */
module RedBlackShapes {
  datatype Color = Red | Black

  datatype Side = Left | Right

  datatype Data = Data(key: int, value: int)

  class Node {
    var data: Data
    var color: Color
    var parent: Node?
    var left: Node?
    var right: Node?

    constructor (data: Data)
      ensures this.data == data && color == Red && parent == null && left == null && right == null
    {
      this.data, color := data, Red;
      parent, left, right := null, null, null;
    }
  }

  datatype Tree = Leaf | Bin(color: Color, left: Tree, node: Node, data: Data, right: Tree)

  /** What surrounds a subtree: the node above it, the side it hangs on, the subtree on the other side, and so on up. */
  datatype Ctx = Top | Under(up: Ctx, side: Side, color: Color, node: Node, data: Data, other: Tree)

  ghost function Root(t: Tree): Node? {
    match t
    case Leaf => null
    case Bin(_, _, n, _, _) => n
  }

  ghost function ParentOf(ctx: Ctx): Node? {
    match ctx
    case Top => null
    case Under(_, _, _, n, _, _) => n
  }

  ghost function Join(side: Side, color: Color, t: Tree, node: Node, data: Data, other: Tree): Tree {
    match side
    case Left => Bin(color, t, node, data, other)
    case Right => Bin(color, other, node, data, t)
  }

  ghost function Plug(ctx: Ctx, t: Tree): Tree {
    match ctx
    case Top => t
    case Under(up, side, c, n, d, o) => Plug(up, Join(side, c, t, n, d, o))
  }

  ghost function Depth(ctx: Ctx): nat {
    match ctx
    case Top => 0
    case Under(up, _, _, _, _, _) => 1 + Depth(up)
  }

  // ---------- Nodes and links ----------

  ghost function Nodes(t: Tree): set<Node> {
    match t
    case Leaf => {}
    case Bin(_, l, n, _, r) => Nodes(l) + {n} + Nodes(r)
  }

  ghost function CtxNodes(ctx: Ctx): set<Node> {
    match ctx
    case Top => {}
    case Under(up, _, _, n, _, o) => {n} + Nodes(o) + CtxNodes(up)
  }

  ghost predicate Distinct(t: Tree) {
    match t
    case Leaf => true
    case Bin(_, l, n, _, r) =>
      n !in Nodes(l) && n !in Nodes(r) && Nodes(l) !! Nodes(r) && Distinct(l) && Distinct(r)
  }

  ghost predicate DistinctCtx(ctx: Ctx) {
    match ctx
    case Top => true
    case Under(up, _, _, n, _, o) =>
      n !in Nodes(o) && Distinct(o) && ({n} + Nodes(o)) !! CtxNodes(up) && DistinctCtx(up)
  }

  ghost predicate Linked(t: Tree, parent: Node?)
    reads Nodes(t)
  {
    match t
    case Leaf => true
    case Bin(c, l, n, d, r) =>
      && n.color == c && n.data == d && n.parent == parent && n.left == Root(l) && n.right == Root(r)
      && Linked(l, n) && Linked(r, n)
  }

  ghost predicate LinkedCtx(ctx: Ctx, child: Node?)
    reads CtxNodes(ctx)
  {
    match ctx
    case Top => true
    case Under(up, side, c, n, d, o) =>
      && n.color == c && n.data == d && n.parent == ParentOf(up)
      && n.left == (if side == Left then child else Root(o))
      && n.right == (if side == Left then Root(o) else child)
      && Linked(o, n) && LinkedCtx(up, n)
  }

  /** The heap holds the tree `Plug(ctx, t)`, seen from the subtree `t`. */
  ghost predicate Focus(ctx: Ctx, t: Tree)
    reads Nodes(t), CtxNodes(ctx)
  {
    && Distinct(t) && DistinctCtx(ctx) && Nodes(t) !! CtxNodes(ctx)
    && Linked(t, ParentOf(ctx)) && LinkedCtx(ctx, Root(t))
  }

  /** All nodes of the tree that is seen from a subtree. */
  ghost function Footprint(ctx: Ctx, t: Tree): set<Node> {
    Nodes(t) + CtxNodes(ctx)
  }

  // ---------- The sequence of pairs ----------

  ghost function InOrder(t: Tree): seq<Data> {
    match t
    case Leaf => []
    case Bin(_, l, _, d, r) => InOrder(l) + [d] + InOrder(r)
  }

  ghost function Before(ctx: Ctx): seq<Data> {
    match ctx
    case Top => []
    case Under(up, side, _, _, d, o) => if side == Left then Before(up) else Before(up) + InOrder(o) + [d]
  }

  ghost function After(ctx: Ctx): seq<Data> {
    match ctx
    case Top => []
    case Under(up, side, _, _, d, o) => if side == Left then [d] + InOrder(o) + After(up) else After(up)
  }

  lemma Regroup(a: seq<Data>, b: seq<Data>, c: seq<Data>, d: seq<Data>, e: seq<Data>)
    ensures a + (b + c + d) + e == a + b + (c + d + e)
    ensures a + (b + c + d) + e == (a + b + c) + d + e
  {
  }

  lemma {:induction false} PlugInOrder(ctx: Ctx, t: Tree)
    ensures InOrder(Plug(ctx, t)) == Before(ctx) + InOrder(t) + After(ctx)
  {
    match ctx
    case Top =>
    case Under(up, side, c, n, d, o) =>
      PlugInOrder(up, Join(side, c, t, n, d, o));
      if side == Left {
        Regroup(Before(up), InOrder(t), [d], InOrder(o), After(up));
      } else {
        Regroup(Before(up), InOrder(o), [d], InOrder(t), After(up));
      }
  }

  lemma {:induction false} PlugNodes(ctx: Ctx, t: Tree)
    ensures Nodes(Plug(ctx, t)) == Nodes(t) + CtxNodes(ctx)
  {
    match ctx
    case Top =>
    case Under(up, side, c, n, d, o) => PlugNodes(up, Join(side, c, t, n, d, o));
  }

  /** Seen from the root instead of from the subtree. */
  lemma {:induction false} Zip(ctx: Ctx, t: Tree)
    requires Focus(ctx, t)
    ensures Focus(Top, Plug(ctx, t))
    decreases ctx
  {
    match ctx
    case Top =>
    case Under(up, side, c, n, d, o) => Zip(up, Join(side, c, t, n, d, o));
  }

  // ---------- Colours ----------

  ghost predicate RootBlack(t: Tree) {
    t.Leaf? || t.color == Black
  }

  ghost predicate NoRedRed(t: Tree) {
    match t
    case Leaf => true
    case Bin(c, l, _, _, r) => (c == Red ==> RootBlack(l) && RootBlack(r)) && NoRedRed(l) && NoRedRed(r)
  }

  ghost function BlackOne(c: Color): nat {
    if c == Black then 1 else 0
  }

  /** The number of black nodes on the way down the left side. */
  ghost function Height(t: Tree): nat {
    match t
    case Leaf => 0
    case Bin(c, l, _, _, _) => Height(l) + BlackOne(c)
  }

  ghost predicate EvenBlack(t: Tree) {
    match t
    case Leaf => true
    case Bin(_, l, _, _, r) => Height(l) == Height(r) && EvenBlack(l) && EvenBlack(r)
  }

  ghost predicate Good(t: Tree) {
    NoRedRed(t) && EvenBlack(t)
  }

  ghost predicate RedBlack(t: Tree) {
    Good(t) && RootBlack(t)
  }

  /** Around a subtree of black height `h` everything is as a red-black tree wants it, and the root is black. */
  ghost predicate GoodCtx(ctx: Ctx, h: nat) {
    match ctx
    case Top => true
    case Under(up, _, c, _, _, o) =>
      && Good(o) && Height(o) == h
      && (c == Red ==> RootBlack(o) && up.Under? && up.color == Black)
      && GoodCtx(up, h + BlackOne(c))
  }

  lemma {:induction false} PlugGood(ctx: Ctx, t: Tree)
    requires Good(t) && GoodCtx(ctx, Height(t))
    requires RootBlack(t) || (ctx.Under? && ctx.color == Black)
    ensures RedBlack(Plug(ctx, t))
  {
    match ctx
    case Top =>
    case Under(up, side, c, n, d, o) => PlugGood(up, Join(side, c, t, n, d, o));
  }

  /** The converse: what holds around each subtree of a red-black tree. */
  lemma {:induction false} UnplugGood(ctx: Ctx, t: Tree)
    requires RedBlack(Plug(ctx, t))
    ensures Good(t) && GoodCtx(ctx, Height(t)) && (RootBlack(t) || (ctx.Under? && ctx.color == Black))
  {
    match ctx
    case Top =>
    case Under(up, side, c, n, d, o) => UnplugGood(up, Join(side, c, t, n, d, o));
  }
}
