/** The repair after an insertion: `adjust_tree` and its four cases. */
module RedBlackInsertion {
  import opened RedBlackShapes
  import opened RedBlackRotations

  // ---------- What the repair sees ----------

  ghost function GrandOf(ctx: Ctx): Node? {
    if ctx.Under? then ParentOf(ctx.up) else null
  }

  /** The subtree beside the parent. */
  ghost function UncleTree(ctx: Ctx): Tree {
    if ctx.Under? && ctx.up.Under? then ctx.up.other else Leaf
  }

  /** `whole` is the tree around the focus, up to its shape and its colours. */
  ghost predicate Rebuilt(ctx: Ctx, t: Tree, whole: Tree) {
    InOrder(whole) == Before(ctx) + InOrder(t) + After(ctx) && Nodes(whole) == Nodes(t) + CtxNodes(ctx)
  }

  function Parent(node: Node?): Node?
    reads node
  {
    if node == null then null else node.parent
  }

  function Grandparent(node: Node?): Node?
    reads node, Parent(node)
  {
    if Parent(node) == null then null else Parent(node).parent
  }

  function Uncle(node: Node?): Node?
    reads node, Parent(node), Grandparent(node)
  {
    var p := Parent(node);
    var g := Parent(p);
    if p == null || g == null then null
    else if g.left == p then g.right
    else g.left
  }

  /** The relatives that the code finds by following pointers are those of the tree. */
  lemma Relatives(ctx: Ctx, t: Tree)
    requires t.Bin? && Focus(ctx, t)
    ensures Parent(t.node) == ParentOf(ctx) && Grandparent(t.node) == GrandOf(ctx)
    ensures Uncle(t.node) == Root(UncleTree(ctx))
    ensures ctx.Under? ==> ctx.node.color == ctx.color && (ctx.node.left == t.node <==> ctx.side == Left)
    ensures ctx.Under? ==> (ctx.node.right == t.node <==> ctx.side == Right)
    ensures ctx.Under? && ctx.up.Under? ==>
      && (ctx.up.node.left == ctx.node <==> ctx.up.side == Left)
      && (ctx.up.node.right == ctx.node <==> ctx.up.side == Right)
      && (UncleTree(ctx).Bin? ==> UncleTree(ctx).node.color == UncleTree(ctx).color)
  {
    FocusFields(ctx, t);
    if ctx.Under? {
      Up(ctx, t);
      FocusFields(ctx.up, Upper(ctx, t));
      RootIn(ctx.other);
      if ctx.up.Under? { RootIn(ctx.up.other); }
    }
  }

  // ---------- Colours and order around the repair ----------

  /** The repair's starting point: a red subtree that is fine, in a tree that is fine around it. */
  ghost predicate Reddened(ctx: Ctx, t: Tree) {
    t.Bin? && t.color == Red && Good(t) && GoodCtx(ctx, Height(t))
  }

  /** Recolouring parent, uncle and grandparent moves the red node two levels up. */
  lemma {:induction false} RedMovesUp(ctx: Ctx, t: Tree)
    requires Reddened(ctx, t) && ctx.Under? && ctx.color == Red && UncleTree(ctx).Bin? && UncleTree(ctx).color == Red
    ensures ctx.up.Under? && Reddened(ctx.up.up, Recolored(ctx, t))
  {
    var p := Join(ctx.side, Black, t, ctx.node, ctx.data, ctx.other);
    var u := UncleTree(ctx).(color := Black);
    assert GoodCtx(ctx.up, Height(t));
    assert Good(ctx.up.other) && Height(ctx.up.other) == Height(t);
    assert Good(ctx.up.other.left) && Good(ctx.up.other.right);
    assert Good(p) && Height(p) == Height(t) + 1;
    assert Good(u) && Height(u) == Height(t) + 1;
  }

  /** Grandparent red, parent and uncle black. */
  ghost function Recolored(ctx: Ctx, t: Tree): Tree
    requires ctx.Under? && ctx.up.Under? && UncleTree(ctx).Bin?
  {
    var p := Join(ctx.side, Black, t, ctx.node, ctx.data, ctx.other);
    Join(ctx.up.side, Red, p, ctx.up.node, ctx.up.data, UncleTree(ctx).(color := Black))
  }

  /** One level up, the pairs are the same. */
  lemma SamePairs(ctx: Ctx, t: Tree, joined: Tree)
    requires ctx.Under?
    requires InOrder(joined) == InOrder(Upper(ctx, t))
    requires Nodes(joined) == Nodes(Upper(ctx, t))
    ensures Before(ctx.up) + InOrder(joined) + After(ctx.up) == Before(ctx) + InOrder(t) + After(ctx)
    ensures Nodes(joined) + CtxNodes(ctx.up) == Nodes(t) + CtxNodes(ctx)
  {
    if ctx.side == Left {
      Regroup(Before(ctx.up), InOrder(t), [ctx.data], InOrder(ctx.other), After(ctx.up));
    } else {
      Regroup(Before(ctx.up), InOrder(ctx.other), [ctx.data], InOrder(t), After(ctx.up));
    }
  }

  lemma RedMovesUpPairs(ctx: Ctx, t: Tree, whole: Tree)
    requires ctx.Under? && ctx.up.Under? && UncleTree(ctx).Bin?
    requires Rebuilt(ctx.up.up, Recolored(ctx, t), whole)
    ensures Rebuilt(ctx, t, whole)
  {
    var p := Join(ctx.side, Black, t, ctx.node, ctx.data, ctx.other);
    SamePairs(ctx, t, p);
    SamePairs(ctx.up, p, Recolored(ctx, t));
  }

  /** A red node under a red parent whose other child, and whose sibling, are black. */
  ghost predicate Clash(ctx: Ctx, t: Tree) {
    Reddened(ctx, t) && ctx.Under? && ctx.color == Red && RootBlack(UncleTree(ctx))
  }

  /** What a clash gives, without the recursive definitions. */
  lemma ClashParts(ctx: Ctx, t: Tree)
    requires Clash(ctx, t)
    ensures ctx.Under? && ctx.color == Red && t.Bin? && t.color == Red
    ensures ctx.up.Under? && ctx.up.color == Black && UncleTree(ctx) == ctx.up.other && RootBlack(ctx.up.other)
    ensures Good(ctx.other) && RootBlack(ctx.other) && Height(ctx.other) == Height(t)
    ensures Good(ctx.up.other) && Height(ctx.up.other) == Height(t)
    ensures GoodCtx(ctx.up.up, Height(t) + 1) && GoodCtx(ctx.up, Height(t))
    ensures Good(t.left) && Good(t.right) && RootBlack(t.left) && RootBlack(t.right)
    ensures Height(t.left) == Height(t) && Height(t.right) == Height(t)
  {
    assert GoodCtx(ctx.up, Height(t));
  }

  /** The first rotation of `adjust_case4`, when node and parent hang on different sides. */
  ghost function StraightCtx(ctx: Ctx, t: Tree): Ctx
    requires ctx.Under? && ctx.up.Under? && t.Bin?
  {
    Under(ctx.up, ctx.up.side, t.color, t.node, t.data, Far(ctx.up.side, t))
  }

  ghost function StraightTree(ctx: Ctx, t: Tree): Tree
    requires ctx.Under? && ctx.up.Under? && t.Bin?
  {
    Join(ctx.up.side, ctx.color, ctx.other, ctx.node, ctx.data, Near(ctx.up.side, t))
  }

  lemma Straightened(ctx: Ctx, t: Tree)
    requires Clash(ctx, t) && ctx.up.Under? && ctx.side != ctx.up.side
    ensures Far(ctx.up.side, Upper(ctx, t)) == t
    ensures Rotated(ctx.up.side, Upper(ctx, t)) == Upper(StraightCtx(ctx, t), StraightTree(ctx, t))
    ensures Clash(StraightCtx(ctx, t), StraightTree(ctx, t))
    ensures Footprint(StraightCtx(ctx, t), StraightTree(ctx, t)) == Footprint(ctx, t)
  {
    ClashParts(ctx, t);
    RotationKeepsOrder(ctx.up.side, Upper(ctx, t));
  }

  /** The second rotation of `adjust_case4`, and the new colours of parent and grandparent. */
  ghost function Lowered(ctx: Ctx): Tree
    requires ctx.Under? && ctx.up.Under?
  {
    Join(Opposite(ctx.side), Red, ctx.up.other, ctx.up.node, ctx.up.data, ctx.other)
  }

  ghost function Settled(ctx: Ctx, t: Tree): Tree
    requires ctx.Under? && ctx.up.Under?
  {
    Join(ctx.side, Black, t, ctx.node, ctx.data, Lowered(ctx))
  }

  lemma SettledGood(ctx: Ctx, t: Tree)
    requires Clash(ctx, t) && ctx.up.Under? && ctx.side == ctx.up.side
    ensures RedBlack(Plug(ctx.up.up, Settled(ctx, t)))
    ensures Rebuilt(ctx, t, Plug(ctx.up.up, Settled(ctx, t)))
  {
    ClashParts(ctx, t);
    assert Good(Lowered(ctx)) && Height(Lowered(ctx)) == Height(t);
    assert Good(Settled(ctx, t)) && Height(Settled(ctx, t)) == Height(t) + 1;
    PlugGood(ctx.up.up, Settled(ctx, t));
    SettledPairs(ctx, t);
    PlugInOrder(ctx.up.up, Settled(ctx, t));
    PlugNodes(ctx.up.up, Settled(ctx, t));
  }

  lemma SettledPairs(ctx: Ctx, t: Tree)
    requires ctx.Under? && ctx.up.Under? && ctx.side == ctx.up.side
    ensures Before(ctx.up.up) + InOrder(Settled(ctx, t)) + After(ctx.up.up) == Before(ctx) + InOrder(t) + After(ctx)
    ensures Nodes(Settled(ctx, t)) + CtxNodes(ctx.up.up) == Nodes(t) + CtxNodes(ctx)
  {
    var p := Upper(ctx, t);
    RotationKeepsOrder(Opposite(ctx.side), Upper(ctx.up, p));
    SamePairs(ctx, t, p);
    SamePairs(ctx.up, p, Settled(ctx, t));
  }

  lemma StraightenedPairs(ctx: Ctx, t: Tree, whole: Tree)
    requires Clash(ctx, t) && ctx.up.Under? && ctx.side != ctx.up.side
    requires Rebuilt(StraightCtx(ctx, t), StraightTree(ctx, t), whole)
    ensures Rebuilt(ctx, t, whole)
  {
    Straightened(ctx, t);
    RotationKeepsOrder(ctx.up.side, Upper(ctx, t));
    SamePairs(ctx, t, Upper(StraightCtx(ctx, t), StraightTree(ctx, t)));
    SamePairs(StraightCtx(ctx, t), StraightTree(ctx, t), Upper(StraightCtx(ctx, t), StraightTree(ctx, t)));
  }

  // ---------- The repair ----------

  method AdjustCase4(node: Node, ghost ctx: Ctx, ghost t: Tree) returns (ghost whole: Tree)
    requires t.Bin? && t.node == node && Focus(ctx, t) && Clash(ctx, t)
    modifies Footprint(ctx, t)
    ensures Focus(Top, whole) && RedBlack(whole) && Rebuilt(ctx, t, whole)
  {
    hide Focus, Footprint, Nodes, CtxNodes, Clash, Rebuilt, Good, RedBlack, GoodCtx, UncleTree;
    ClashParts(ctx, t);
    Relatives(ctx, t);
    var p := Parent(node);
    var u := Uncle(node);
    var g := Grandparent(node);
    if (u == null || u.color == Black) && p != null && p.right == node && g != null && g.left == p {
      Up(ctx, t);
      Straightened(ctx, t);
      var _ := RotateLeft(p, ctx.up, Upper(ctx, t));
      Down(ctx.up, Upper(StraightCtx(ctx, t), StraightTree(ctx, t)), Left);
      FocusFields(StraightCtx(ctx, t), StraightTree(ctx, t));
      whole := Settle(node.left, StraightCtx(ctx, t), StraightTree(ctx, t));
      StraightenedPairs(ctx, t, whole);
    } else if (u == null || u.color == Black) && p != null && p.left == node && g != null && g.right == p {
      Up(ctx, t);
      Straightened(ctx, t);
      var _ := RotateRight(p, ctx.up, Upper(ctx, t));
      Down(ctx.up, Upper(StraightCtx(ctx, t), StraightTree(ctx, t)), Right);
      FocusFields(StraightCtx(ctx, t), StraightTree(ctx, t));
      whole := Settle(node.right, StraightCtx(ctx, t), StraightTree(ctx, t));
      StraightenedPairs(ctx, t, whole);
    } else {
      whole := Settle(node, ctx, t);
    }
  }

  /** The rotation at the grandparent that ends `adjust_case4`. */
  method Settle(node: Node, ghost ctx: Ctx, ghost t: Tree) returns (ghost whole: Tree)
    requires t.Bin? && t.node == node && Focus(ctx, t) && Clash(ctx, t)
    requires ctx.up.Under? && ctx.side == ctx.up.side
    modifies Footprint(ctx, t)
    ensures Focus(Top, whole) && RedBlack(whole) && Rebuilt(ctx, t, whole)
  {
    hide Focus, Footprint, Nodes, CtxNodes, Clash, Rebuilt, Good, RedBlack, GoodCtx, UncleTree;
    ClashParts(ctx, t);
    Relatives(ctx, t);
    var p := Parent(node);
    var g := Grandparent(node);
    ghost var top := Upper(ctx.up, Upper(ctx, t));
    Up(ctx, t);
    Up(ctx.up, Upper(ctx, t));
    if node == p.left {
      var _ := RotateRight(g, ctx.up.up, top);
    } else {
      var _ := RotateLeft(g, ctx.up.up, top);
    }
    ghost var turned := Rotated(Opposite(ctx.side), top);
    TurnedFootprint(Opposite(ctx.side), ctx.up.up, top);
    Paint(p, Black, ctx.up.up, turned);
    ghost var painted := turned.(color := Black);
    Down(ctx.up.up, painted, Opposite(ctx.side));
    ghost var low := Below(ctx.up.up, painted, Opposite(ctx.side));
    Paint(g, Red, low, Near(Opposite(ctx.side), painted));
    Up(low, Lowered(ctx));
    Zip(ctx.up.up, Settled(ctx, t));
    SettledGood(ctx, t);
    whole := Plug(ctx.up.up, Settled(ctx, t));
  }

  /** At the root the red node turns black. */
  method AdjustCase1(node: Node, ghost ctx: Ctx, ghost t: Tree) returns (ghost whole: Tree)
    requires t.Bin? && t.node == node && Focus(ctx, t) && Reddened(ctx, t) && ctx == Top
    modifies Footprint(ctx, t)
    ensures Focus(Top, whole) && RedBlack(whole) && Rebuilt(ctx, t, whole)
  {
    hide Focus;
    RootIn(t);
    Relatives(ctx, t);
    if Parent(node) == null {
      Paint(node, Black, ctx, t);
    }
    whole := t.(color := Black);
  }

  /** Under a black parent nothing is to be done. */
  method AdjustCase2(node: Node, ghost ctx: Ctx, ghost t: Tree) returns (ghost whole: Tree)
    requires t.Bin? && t.node == node && Focus(ctx, t) && Reddened(ctx, t) && ctx.Under? && ctx.color == Black
    ensures Focus(Top, whole) && RedBlack(whole) && Rebuilt(ctx, t, whole)
  {
    hide Focus;
    whole := Plug(ctx, t);
    Zip(ctx, t);
    PlugGood(ctx, t);
    PlugInOrder(ctx, t);
    PlugNodes(ctx, t);
  }

  /** Parent and uncle turn black, the grandparent turns red and is repaired in its turn. */
  method AdjustCase3(node: Node, ghost ctx: Ctx, ghost t: Tree) returns (ghost whole: Tree)
    requires t.Bin? && t.node == node && Focus(ctx, t) && Reddened(ctx, t)
    requires ctx.Under? && ctx.color == Red && UncleTree(ctx).Bin? && UncleTree(ctx).color == Red
    modifies Footprint(ctx, t)
    ensures Focus(Top, whole) && RedBlack(whole) && Rebuilt(ctx, t, whole)
    decreases Depth(ctx), 0
  {
    hide Focus, Footprint, Nodes, CtxNodes, Reddened, Rebuilt, Good, RedBlack, GoodCtx;
    RedMovesUp(ctx, t);
    Relatives(ctx, t);
    Up(ctx, t);
    Up(ctx.up, Upper(ctx, t));
    assert Depth(ctx) == 1 + Depth(ctx.up);
    var p, u, g := Parent(node), Uncle(node), Grandparent(node);
    ghost var up := ctx.up;
    if p != null {
      Paint(p, Black, up, Upper(ctx, t));
    }
    ghost var p' := Upper(ctx, t).(color := Black);
    Up(up, p');
    Down(up.up, Upper(up, p'), Opposite(up.side));
    ghost var beside := Below(up.up, Upper(up, p'), Opposite(up.side));
    FocusFields(beside, UncleTree(ctx));
    if u != null {
      Paint(u, Black, beside, UncleTree(ctx));
    }
    Up(beside, UncleTree(ctx).(color := Black));
    if g != null {
      Paint(g, Red, up.up, Upper(beside, UncleTree(ctx).(color := Black)));
      whole := AdjustTree(g, up.up, Recolored(ctx, t));
      RedMovesUpPairs(ctx, t, whole);
    }
  }

  /**
   * The repair of a red node whose parent may be red: ends with a red-black tree of the same pairs in the same order.
   */
  method AdjustTree(node: Node, ghost ctx: Ctx, ghost t: Tree) returns (ghost whole: Tree)
    requires t.Bin? && t.node == node && Focus(ctx, t) && Reddened(ctx, t)
    modifies Footprint(ctx, t)
    ensures Focus(Top, whole) && RedBlack(whole) && Rebuilt(ctx, t, whole)
    decreases Depth(ctx), 1
  {
    hide Focus, Footprint, Nodes, CtxNodes, Reddened, Rebuilt, Good, RedBlack, GoodCtx;
    Relatives(ctx, t);
    if Parent(node) == null {
      whole := AdjustCase1(node, ctx, t);
    } else if Parent(node).color == Black {
      whole := AdjustCase2(node, ctx, t);
    } else if Uncle(node) != null && Uncle(node).color == Red {
      whole := AdjustCase3(node, ctx, t);
    } else {
      whole := AdjustCase4(node, ctx, t);
    }
  }
}
