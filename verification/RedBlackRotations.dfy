/** The rotations of `RedBlackTree`, and the lemmas that move the focus and carry it over a change of fields. */
module RedBlackRotations {
  import opened RedBlackShapes

  // ---------- Moving the focus ----------

  ghost function Near(side: Side, t: Tree): Tree
    requires t.Bin?
  {
    if side == Left then t.left else t.right
  }

  ghost function Far(side: Side, t: Tree): Tree
    requires t.Bin?
  {
    if side == Left then t.right else t.left
  }

  ghost function Below(ctx: Ctx, t: Tree, side: Side): Ctx
    requires t.Bin?
  {
    Under(ctx, side, t.color, t.node, t.data, Far(side, t))
  }

  lemma Down(ctx: Ctx, t: Tree, side: Side)
    requires t.Bin? && Focus(ctx, t)
    ensures Focus(Below(ctx, t, side), Near(side, t))
    ensures Footprint(Below(ctx, t, side), Near(side, t)) == Footprint(ctx, t)
    ensures Near(side, t).Bin? ==> Near(side, t).node in Footprint(ctx, t)
  {
  }

  /** A subtree together with the node above it. */
  ghost function Upper(ctx: Ctx, t: Tree): Tree
    requires ctx.Under?
  {
    Join(ctx.side, ctx.color, t, ctx.node, ctx.data, ctx.other)
  }

  lemma Up(ctx: Ctx, t: Tree)
    requires ctx.Under? && Focus(ctx, t)
    ensures Focus(ctx.up, Upper(ctx, t))
    ensures Footprint(ctx.up, Upper(ctx, t)) == Footprint(ctx, t)
    ensures ctx.node in Footprint(ctx, t)
  {
  }

  lemma UpperFootprint(ctx: Ctx, t: Tree)
    requires ctx.Under?
    ensures Footprint(ctx.up, Upper(ctx, t)) == Footprint(ctx, t)
  {
  }

  /** What the fields around a focused subtree hold. */
  lemma FocusFields(ctx: Ctx, t: Tree)
    requires Focus(ctx, t)
    ensures t.Bin? ==>
      && t.node in Nodes(t) && t.node.parent == ParentOf(ctx) && t.node.left == Root(t.left)
      && t.node.right == Root(t.right) && t.node.color == t.color && t.node.data == t.data
    ensures ctx.Under? ==>
      && ctx.node in CtxNodes(ctx) && ctx.node.parent == ParentOf(ctx.up)
      && ctx.node.left == (if ctx.side == Left then Root(t) else Root(ctx.other))
      && ctx.node.right == (if ctx.side == Left then Root(ctx.other) else Root(t))
      && ctx.node.color == ctx.color && ctx.node.data == ctx.data
  {
  }

  /** The nodes around a focused subtree are different objects. */
  lemma FocusApart(ctx: Ctx, t: Tree)
    requires Focus(ctx, t)
    ensures t.Bin? && ctx.Under? ==> t.node != ctx.node
    ensures t.Bin? ==> t.node !in Nodes(t.left) && t.node !in Nodes(t.right) && Nodes(t.left) !! Nodes(t.right)
    ensures t.Bin? ==> Nodes(t) == Nodes(t.left) + {t.node} + Nodes(t.right)
    ensures ctx.Under? ==> CtxNodes(ctx) == {ctx.node} + Nodes(ctx.other) + CtxNodes(ctx.up)
    ensures ctx.Under? ==> ctx.node !in Nodes(t) && Nodes(t) !! Nodes(ctx.other) && Nodes(t) !! CtxNodes(ctx.up)
  {
  }

  lemma RootIn(t: Tree)
    ensures Root(t) == null <==> t.Leaf?
    ensures t.Bin? ==> t.node in Nodes(t)
  {
  }

  // ---------- What a rotation does ----------

  /** The tree after its root `x` went down on `side` and the child on the other side came up. */
  ghost function Rotated(side: Side, t: Tree): Tree
    requires t.Bin? && Far(side, t).Bin?
  {
    var y := Far(side, t);
    Join(side, y.color, Join(side, t.color, Near(side, t), t.node, t.data, Near(side, y)), y.node, y.data, Far(side, y))
  }

  lemma RotationKeepsOrder(side: Side, t: Tree)
    requires t.Bin? && Far(side, t).Bin?
    ensures InOrder(Rotated(side, t)) == InOrder(t)
    ensures Nodes(Rotated(side, t)) == Nodes(t)
  {
    var y := Far(side, t);
    if side == Left {
      Regroup([], InOrder(t.left) + [t.data], InOrder(y.left), [y.data], InOrder(y.right));
    } else {
      Regroup(InOrder(y.left), [y.data], InOrder(y.right), [t.data], InOrder(t.right));
    }
  }

  lemma TurnedFootprint(side: Side, ctx: Ctx, t: Tree)
    requires t.Bin? && Far(side, t).Bin?
    ensures Footprint(ctx, Rotated(side, t)) == Footprint(ctx, t)
    ensures t.node in Footprint(ctx, t) && Far(side, t).node in Footprint(ctx, t)
  {
    RotationKeepsOrder(side, t);
    RootIn(t);
    RootIn(Far(side, t));
  }

  // ---------- Fields that change under a focus ----------

  /** No field of these nodes has changed. */
  twostate predicate Untouched(new nodes: set<Node>)
    reads nodes
  {
    forall n <- nodes :: old(allocated(n)) && unchanged(n)
  }

  twostate lemma UntouchedPart(new nodes: set<Node>, new part: set<Node>)
    requires Untouched(nodes) && part <= nodes
    ensures Untouched(part)
  {
  }

  twostate lemma LinkedStays(t: Tree, new parent: Node?)
    requires old(allocated(parent))
    requires old(Linked(t, parent)) && Untouched(Nodes(t))
    ensures Linked(t, parent)
  {
    hide Linked;
  }

  twostate lemma LinkedCtxStays(ctx: Ctx, new child: Node?)
    requires old(allocated(child))
    requires old(LinkedCtx(ctx, child)) && Untouched(CtxNodes(ctx))
    ensures LinkedCtx(ctx, child)
  {
    hide LinkedCtx;
  }

  /** A subtree none of whose nodes changed, but for the parent of its root. */
  twostate lemma Rehung(t: Tree, new was: Node?, new now: Node?)
    requires old(allocated(was))
    requires old(Linked(t, was)) && Distinct(t)
    requires t.Bin? ==> t.node.parent == now && SameButParent(t.node)
    requires t.Bin? ==> Untouched(Nodes(t) - {t.node})
    ensures Linked(t, now)
  {
    if t.Bin? {
      UntouchedPart(Nodes(t) - {t.node}, Nodes(t.left));
      UntouchedPart(Nodes(t) - {t.node}, Nodes(t.right));
      LinkedStays(t.left, t.node);
      LinkedStays(t.right, t.node);
    }
  }

  twostate predicate SameButParent(n: Node)
    reads n
  {
    n.data == old(n.data) && n.color == old(n.color) && n.left == old(n.left) && n.right == old(n.right)
  }

  /** A context none of whose nodes changed, but for the link from its lowest node to the focused subtree. */
  twostate lemma Regrafted(ctx: Ctx, new was: Node?, new now: Node?)
    requires old(allocated(was))
    requires old(LinkedCtx(ctx, was)) && DistinctCtx(ctx)
    requires ctx.Under? ==>
      && ctx.node.data == old(ctx.node.data) && ctx.node.color == old(ctx.node.color)
      && ctx.node.parent == old(ctx.node.parent)
      && ctx.node.left == (if ctx.side == Left then now else old(ctx.node.left))
      && ctx.node.right == (if ctx.side == Left then old(ctx.node.right) else now)
    requires ctx.Under? ==> Untouched(CtxNodes(ctx) - {ctx.node})
    ensures LinkedCtx(ctx, now)
  {
    if ctx.Under? {
      UntouchedPart(CtxNodes(ctx) - {ctx.node}, Nodes(ctx.other));
      UntouchedPart(CtxNodes(ctx) - {ctx.node}, CtxNodes(ctx.up));
      LinkedStays(ctx.other, ctx.node);
      LinkedCtxStays(ctx.up, ctx.node);
    }
  }

  /** The colour and the data of the focused node were overwritten. */
  twostate lemma Repainted(ctx: Ctx, new t: Tree)
    requires old(allocated(t))
    requires t.Bin? && old(Focus(ctx, t))
    requires t.node.parent == old(t.node.parent) && t.node.left == old(t.node.left)
    requires t.node.right == old(t.node.right)
    requires Untouched(Nodes(t) + CtxNodes(ctx) - {t.node})
    ensures Focus(ctx, t.(color := t.node.color, data := t.node.data))
  {
    var others := Nodes(t) + CtxNodes(ctx) - {t.node};
    UntouchedPart(others, Nodes(t.left));
    UntouchedPart(others, Nodes(t.right));
    UntouchedPart(others, CtxNodes(ctx));
    LinkedStays(t.left, t.node);
    LinkedStays(t.right, t.node);
    LinkedCtxStays(ctx, t.node);
  }

  // ---------- The rotations ----------

  ghost function Opposite(side: Side): Side {
    if side == Left then Right else Left
  }

  ghost function Child(n: Node, side: Side): Node?
    reads n
  {
    if side == Left then n.left else n.right
  }

  ghost function Roots(t: Tree): set<Node> {
    if t.Bin? then {t.node} else {}
  }

  ghost function Lowest(ctx: Ctx): set<Node> {
    if ctx.Under? then {ctx.node} else {}
  }

  /** The nodes whose links a rotation of `t` to `side` rewrites. */
  ghost function Turning(side: Side, ctx: Ctx, t: Tree): set<Node>
    requires t.Bin? && Far(side, t).Bin?
  {
    {t.node, Far(side, t).node} + Roots(Near(side, Far(side, t))) + Lowest(ctx)
  }

  /** The links of the four nodes at a rotation, before and after. */
  twostate predicate Turned(side: Side, new ctx: Ctx, new t: Tree)
    requires old(allocated(ctx)) && old(allocated(t))
    requires t.Bin? && Far(side, t).Bin?
    reads Turning(side, ctx, t)
  {
    var x, y, b := t.node, Far(side, t).node, Near(side, Far(side, t));
    && x.data == old(x.data) && x.color == old(x.color)
    && y.data == old(y.data) && y.color == old(y.color)
    && Child(x, side) == old(Child(x, side)) && Child(x, Opposite(side)) == Root(b) && x.parent == y
    && Child(y, side) == x && Child(y, Opposite(side)) == old(Child(y, Opposite(side))) && y.parent == ParentOf(ctx)
    && (b.Bin? ==> b.node.parent == x && SameButParent(b.node))
    && (ctx.Under? ==>
      && ctx.node.data == old(ctx.node.data) && ctx.node.color == old(ctx.node.color)
      && ctx.node.parent == old(ctx.node.parent)
      && ctx.node.left == (if ctx.side == Left then y else old(ctx.node.left))
      && ctx.node.right == (if ctx.side == Left then old(ctx.node.right) else y))
  }

  /** The parts of a tree at a rotation do not overlap. */
  lemma TurningParts(side: Side, ctx: Ctx, t: Tree)
    requires t.Bin? && Far(side, t).Bin?
    requires Distinct(t) && DistinctCtx(ctx) && Nodes(t) !! CtxNodes(ctx)
    ensures
      var x, y, a, b, e := t.node, Far(side, t).node, Near(side, t), Near(side, Far(side, t)), Far(side, Far(side, t));
      var rest := Nodes(t) + CtxNodes(ctx) - Turning(side, ctx, t);
      && Nodes(a) <= rest && Nodes(e) <= rest && Nodes(b) - Roots(b) <= rest && CtxNodes(ctx) - Lowest(ctx) <= rest
      && x != y && x !in Roots(b) && y !in Roots(b) && x !in Lowest(ctx) && y !in Lowest(ctx) && Roots(b) !! Lowest(ctx)
      && Distinct(a) && Distinct(b) && Distinct(e)
  {
    assert Distinct(Far(side, t));
    RootIn(Far(side, t));
    RootIn(Near(side, Far(side, t)));
    if ctx.Under? { assert ctx.node in CtxNodes(ctx); }
  }

  lemma RotatedDistinct(side: Side, t: Tree)
    requires t.Bin? && Far(side, t).Bin? && Distinct(t)
    ensures Distinct(Rotated(side, t))
  {
  }

  twostate lemma TurnedParts(side: Side, new ctx: Ctx, new t: Tree)
    requires old(allocated(ctx)) && old(allocated(t))
    requires t.Bin? && Far(side, t).Bin? && old(Focus(ctx, t))
    requires Turned(side, ctx, t)
    requires Untouched(Nodes(t) + CtxNodes(ctx) - Turning(side, ctx, t))
    ensures Linked(Near(side, t), t.node) && Linked(Near(side, Far(side, t)), t.node)
    ensures Linked(Far(side, Far(side, t)), Far(side, t).node) && LinkedCtx(ctx, Far(side, t).node)
  {
    var x, y, a, b, e := t.node, Far(side, t).node, Near(side, t), Near(side, Far(side, t)), Far(side, Far(side, t));
    var rest := Nodes(t) + CtxNodes(ctx) - Turning(side, ctx, t);
    assert old(Linked(a, x)) && old(Linked(Far(side, t), x));
    assert old(Linked(b, y)) && old(Linked(e, y));
    assert old(LinkedCtx(ctx, x));
    hide Linked, LinkedCtx, Nodes, CtxNodes, Distinct, DistinctCtx;
    TurningParts(side, ctx, t);
    UntouchedPart(rest, Nodes(a));
    UntouchedPart(rest, Nodes(e));
    UntouchedPart(rest, Nodes(b) - Roots(b));
    UntouchedPart(rest, CtxNodes(ctx) - Lowest(ctx));
    LinkedStays(a, x);
    LinkedStays(e, y);
    Rehung(b, y, x);
    Regrafted(ctx, x, y);
  }

  twostate lemma TurnedFocus(side: Side, new ctx: Ctx, new t: Tree)
    requires old(allocated(ctx)) && old(allocated(t))
    requires t.Bin? && Far(side, t).Bin? && old(Focus(ctx, t))
    requires Turned(side, ctx, t)
    requires Untouched(Nodes(t) + CtxNodes(ctx) - Turning(side, ctx, t))
    ensures Focus(ctx, Rotated(side, t))
  {
    TurnedParts(side, ctx, t);
    RotatedDistinct(side, t);
    RotationKeepsOrder(side, t);
    TurnedLinks(side, ctx, t);
  }

  twostate lemma TurnedLinks(side: Side, new ctx: Ctx, new t: Tree)
    requires old(allocated(ctx)) && old(allocated(t))
    requires t.Bin? && Far(side, t).Bin? && old(Focus(ctx, t))
    requires Turned(side, ctx, t)
    requires Linked(Near(side, t), t.node) && Linked(Near(side, Far(side, t)), t.node)
    requires Linked(Far(side, Far(side, t)), Far(side, t).node)
    ensures Linked(Rotated(side, t), ParentOf(ctx))
  {
    var y := Far(side, t);
    var lower := Join(side, t.color, Near(side, t), t.node, t.data, Near(side, y));
    assert old(Linked(y, t.node));
    assert Linked(lower, y.node);
  }

  /** What the code reads before it rotates `t` to `side`. */
  lemma RotationFields(side: Side, ctx: Ctx, t: Tree)
    requires t.Bin? && Focus(ctx, t)
    ensures t.node.parent == ParentOf(ctx) && Child(t.node, side) == Root(Near(side, t))
    ensures Child(t.node, Opposite(side)) == Root(Far(side, t))
    ensures Far(side, t).Bin? ==>
      var y := Far(side, t);
      && Child(y.node, side) == Root(Near(side, y)) && y.node.parent == t.node
      && Turning(side, ctx, t) <= Nodes(t) + CtxNodes(ctx)
      && t.node != y.node && t.node !in Roots(Near(side, y)) && y.node !in Roots(Near(side, y))
      && t.node !in Lowest(ctx) && y.node !in Lowest(ctx) && Roots(Near(side, y)) !! Lowest(ctx)
      && (Near(side, y).Bin? ==> Near(side, y).node.parent == y.node)
    ensures ctx.Under? ==> (ctx.node.left == t.node <==> ctx.side == Left)
    ensures ctx.Under? && ctx.side == Right ==> ctx.node.right == t.node
  {
    FocusFields(ctx, t);
    if Far(side, t).Bin? {
      Down(ctx, t, Opposite(side));
      FocusFields(Below(ctx, t, Opposite(side)), Far(side, t));
      TurningParts(side, ctx, t);
      if Near(side, Far(side, t)).Bin? {
        Down(Below(ctx, t, Opposite(side)), Far(side, t), side);
      }
    }
    if ctx.Under? { RootIn(ctx.other); }
  }

  /** Rotates `node` down to the left, unless it has no right child. */
  method RotateLeft(node: Node, ghost ctx: Ctx, ghost t: Tree) returns (top: Node?)
    requires t.Bin? && t.node == node && Focus(ctx, t)
    modifies Footprint(ctx, t)
    ensures t.right.Leaf? ==> top == null && Focus(ctx, t)
    ensures t.right.Bin? ==> top == t.right.node && Focus(ctx, Rotated(Left, t))
  {
    hide Focus, Nodes, CtxNodes;
    RotationFields(Left, ctx, t);
    var nodeParent := node.parent;
    var nodeRight := node.right;
    if nodeRight == null {
      return null;
    }
    node.right := nodeRight.left;
    if node.right != null {
      node.right.parent := node;
    }
    nodeRight.left := node;
    node.parent := nodeRight;
    if nodeParent != null {
      if nodeParent.left == node {
        nodeParent.left := nodeRight;
      } else {
        nodeParent.right := nodeRight;
      }
    }
    nodeRight.parent := nodeParent;
    top := nodeRight;
    assert Turned(Left, ctx, t);
    assert Untouched(Nodes(t) + CtxNodes(ctx) - Turning(Left, ctx, t));
    TurnedFocus(Left, ctx, t);
  }

  /** Rotates `node` down to the right, unless it has no left child. */
  method RotateRight(node: Node, ghost ctx: Ctx, ghost t: Tree) returns (top: Node?)
    requires t.Bin? && t.node == node && Focus(ctx, t)
    modifies Footprint(ctx, t)
    ensures t.left.Leaf? ==> top == null && Focus(ctx, t)
    ensures t.left.Bin? ==> top == t.left.node && Focus(ctx, Rotated(Right, t))
  {
    hide Focus, Nodes, CtxNodes;
    RotationFields(Right, ctx, t);
    var nodeParent := node.parent;
    var nodeLeft := node.left;
    if nodeLeft == null {
      return null;
    }
    node.left := nodeLeft.right;
    if node.left != null {
      node.left.parent := node;
    }
    nodeLeft.right := node;
    node.parent := nodeLeft;
    if nodeParent != null {
      if nodeParent.left == node {
        nodeParent.left := nodeLeft;
      } else {
        nodeParent.right := nodeLeft;
      }
    }
    nodeLeft.parent := nodeParent;
    top := nodeLeft;
    assert Turned(Right, ctx, t);
    assert Untouched(Nodes(t) + CtxNodes(ctx) - Turning(Right, ctx, t));
    TurnedFocus(Right, ctx, t);
  }

  /** The colour of a node is overwritten. */
  method Paint(node: Node, color: Color, ghost ctx: Ctx, ghost t: Tree)
    requires t.Bin? && t.node == node && Focus(ctx, t)
    modifies node`color
    ensures Focus(ctx, t.(color := color)) && Footprint(ctx, t.(color := color)) == Footprint(ctx, t)
  {
    FocusFields(ctx, t);
    hide Focus, Nodes, CtxNodes;
    node.color := color;
    assert Untouched(Nodes(t) + CtxNodes(ctx) - {node});
    Repainted(ctx, t);
  }

  /** The pair in a node is overwritten. */
  method Rewrite(node: Node, data: Data, ghost ctx: Ctx, ghost t: Tree)
    requires t.Bin? && t.node == node && Focus(ctx, t)
    modifies node`data
    ensures Focus(ctx, t.(data := data)) && Footprint(ctx, t.(data := data)) == Footprint(ctx, t)
  {
    FocusFields(ctx, t);
    hide Focus, Nodes, CtxNodes;
    node.data := data;
    assert Untouched(Nodes(t) + CtxNodes(ctx) - {node});
    Repainted(ctx, t);
  }
}
