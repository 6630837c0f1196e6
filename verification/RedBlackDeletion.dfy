/** The repair after a deletion: `delete_node_complex1` to `delete_node_complex6`. */
module RedBlackDeletion {
  import opened RedBlackShapes
  import opened RedBlackRotations
  import opened RedBlackInsertion

  /** A subtree that is fine, with a black root, but one black node short for its place. */
  ghost predicate Deficient(ctx: Ctx, t: Tree) {
    Good(t) && RootBlack(t) && GoodCtx(ctx, Height(t) + 1)
  }

  ghost function Sibling(ctx: Ctx): Tree {
    if ctx.Under? then ctx.other else Leaf
  }

  /** The sibling that the code finds from the parent. */
  function SiblingOf(p: Node, node: Node?): Node?
    reads p
  {
    if p.left != node then p.left else p.right
  }

  /** A child of a node in the terms of the code: absent, or black. */
  predicate NotRed(n: Node?)
    reads n
  {
    n == null || n.color == Black
  }

  lemma DeficientParts(ctx: Ctx, t: Tree)
    requires Deficient(ctx, t) && ctx.Under?
    ensures ctx.other.Bin? && Good(ctx.other) && Height(ctx.other) == Height(t) + 1
    ensures Good(ctx.other.left) && Good(ctx.other.right) && Height(ctx.other.left) == Height(ctx.other.right)
    ensures Height(ctx.other.left) + BlackOne(ctx.other.color) == Height(t) + 1
    ensures ctx.other.color == Red ==> RootBlack(ctx.other.left) && RootBlack(ctx.other.right)
    ensures ctx.color == Red ==> ctx.other.color == Black && ctx.up.Under? && ctx.up.color == Black
    ensures GoodCtx(ctx.up, Height(t) + 1 + BlackOne(ctx.color))
  {
  }

  lemma BinFields(ctx: Ctx, t: Tree)
    requires Focus(ctx, t) && t.Bin?
    ensures t.node.color == t.color && t.node.left == Root(t.left) && t.node.right == Root(t.right)
    ensures t.left.Bin? ==> t.left.node.color == t.left.color
    ensures t.right.Bin? ==> t.right.node.color == t.right.color
  {
    assert Linked(t.left, t.node) && Linked(t.right, t.node);
  }

  lemma SiblingFields(ctx: Ctx, t: Tree)
    requires Focus(ctx, t) && ctx.Under? && ctx.other.Bin?
    ensures ctx.node.color == ctx.color && ctx.node.parent == ParentOf(ctx.up)
    ensures (ctx.node.left == Root(t) <==> ctx.side == Left) && (ctx.node.right == Root(t) <==> ctx.side == Right)
    ensures SiblingOf(ctx.node, Root(t)) == ctx.other.node
    ensures ctx.other.node.color == ctx.other.color
    ensures NotRed(ctx.other.node.left) == RootBlack(ctx.other.left)
    ensures NotRed(ctx.other.node.right) == RootBlack(ctx.other.right)
    ensures ctx.other.node.left == Root(ctx.other.left) && ctx.other.node.right == Root(ctx.other.right)
  {
    FocusFields(ctx, t);
    Up(ctx, t);
    Down(ctx.up, Upper(ctx, t), Opposite(ctx.side));
    BinFields(Below(ctx.up, Upper(ctx, t), Opposite(ctx.side)), ctx.other);
    RootIn(t);
    RootIn(ctx.other);
  }

  /** The focus moves to the sibling. */
  ghost function Across(ctx: Ctx, t: Tree): Ctx
    requires ctx.Under?
  {
    Below(ctx.up, Upper(ctx, t), Opposite(ctx.side))
  }

  lemma Cross(ctx: Ctx, t: Tree)
    requires Focus(ctx, t) && ctx.Under?
    ensures Focus(Across(ctx, t), ctx.other) && Footprint(Across(ctx, t), ctx.other) == Footprint(ctx, t)
    ensures Root(ctx.other) != null ==> Root(ctx.other) in Footprint(ctx, t)
    ensures ctx.node in Footprint(ctx, t)
  {
    hide Focus, Footprint;
    Up(ctx, t);
    Down(ctx.up, Upper(ctx, t), Opposite(ctx.side));
  }

  /** The repair ends at `top`, which takes the place of the focused tree and its parent. */
  lemma Repaired(ctx: Ctx, t: Tree, top: Tree)
    requires ctx.Under? && Focus(ctx.up, top) && Good(top) && GoodCtx(ctx.up, Height(top))
    requires RootBlack(top) || (ctx.up.Under? && ctx.up.color == Black)
    requires InOrder(top) == InOrder(Upper(ctx, t)) && Nodes(top) == Nodes(Upper(ctx, t))
    ensures Focus(Top, Plug(ctx.up, top)) && RedBlack(Plug(ctx.up, top)) && Rebuilt(ctx, t, Plug(ctx.up, top))
  {
    hide Focus, Good, GoodCtx, RedBlack, InOrder, Nodes;
    Zip(ctx.up, top);
    PlugGood(ctx.up, top);
    PlugInOrder(ctx.up, top);
    PlugNodes(ctx.up, top);
    SamePairs(ctx, t, top);
  }

  // ---------- Case 6: the far child of the sibling is red ----------

  ghost function FarRed(ctx: Ctx): bool {
    ctx.Under? && ctx.other.Bin? && ctx.other.color == Black && !RootBlack(Far(ctx.side, ctx.other))
  }

  ghost function Case6(ctx: Ctx, t: Tree): Tree
    requires FarRed(ctx)
  {
    var o := ctx.other;
    var low := Join(ctx.side, Black, t, ctx.node, ctx.data, Near(ctx.side, o));
    Join(ctx.side, ctx.color, low, o.node, o.data, Far(ctx.side, o).(color := Black))
  }

  lemma Case6Good(ctx: Ctx, t: Tree)
    requires Deficient(ctx, t) && FarRed(ctx)
    ensures Good(Case6(ctx, t)) && GoodCtx(ctx.up, Height(Case6(ctx, t)))
    ensures RootBlack(Case6(ctx, t)) || (ctx.up.Under? && ctx.up.color == Black)
  {
    DeficientParts(ctx, t);
    var o := ctx.other;
    var low := Join(ctx.side, Black, t, ctx.node, ctx.data, Near(ctx.side, o));
    var far := Far(ctx.side, o).(color := Black);
    assert Good(low) && Height(low) == Height(t) + 1;
    assert Good(far) && Height(far) == Height(t) + 1;
  }

  /** `Case6` before its rotation. */
  ghost function Case6Colors(ctx: Ctx, t: Tree): Tree
    requires FarRed(ctx)
  {
    var o := ctx.other;
    var far := Far(ctx.side, o).(color := Black);
    Join(ctx.side, Black, t, ctx.node, ctx.data, Join(ctx.side, ctx.color, Near(ctx.side, o), o.node, o.data, far))
  }

  lemma Case6Turned(ctx: Ctx, t: Tree)
    requires FarRed(ctx)
    ensures Far(ctx.side, Case6Colors(ctx, t)).Bin? && Rotated(ctx.side, Case6Colors(ctx, t)) == Case6(ctx, t)
    ensures InOrder(Case6Colors(ctx, t)) == InOrder(Upper(ctx, t))
    ensures Nodes(Case6Colors(ctx, t)) == Nodes(Upper(ctx, t))
    ensures InOrder(Case6(ctx, t)) == InOrder(Upper(ctx, t)) && Nodes(Case6(ctx, t)) == Nodes(Upper(ctx, t))
    ensures Footprint(ctx.up, Case6Colors(ctx, t)) == Footprint(ctx, t)
  {
    var o := ctx.other;
    var far := Far(ctx.side, o).(color := Black);
    var o' := Join(ctx.side, ctx.color, Near(ctx.side, o), o.node, o.data, far);
    assert InOrder(far) == InOrder(Far(ctx.side, o)) && Nodes(far) == Nodes(Far(ctx.side, o));
    assert InOrder(o') == InOrder(o) && Nodes(o') == Nodes(o);
    RotationKeepsOrder(ctx.side, Case6Colors(ctx, t));
  }

  method DeleteNodeComplex6(p: Node, node: Node?, ghost ctx: Ctx, ghost t: Tree) returns (ghost whole: Tree)
    requires Focus(ctx, t) && Deficient(ctx, t) && FarRed(ctx) && p == ctx.node && node == Root(t)
    modifies Footprint(ctx, t)
    ensures Focus(Top, whole) && RedBlack(whole) && Rebuilt(ctx, t, whole)
  {
    hide Focus, Footprint, Nodes, CtxNodes, Deficient, Rebuilt, Good, RedBlack, GoodCtx;
    SiblingFields(ctx, t);
    Cross(ctx, t);
    var s := SiblingOf(p, node);
    ghost var across, o, back := Across(ctx, t), ctx.other, Opposite(ctx.side);
    Paint(s, p.color, across, o);
    ghost var o1 := o.(color := ctx.color);
    Up(across, o1);
    Paint(p, Black, ctx.up, Upper(across, o1));
    ghost var t1 := Upper(across, o1).(color := Black);
    Down(ctx.up, t1, ctx.side);
    SiblingFields(ctx.(color := Black, other := o1), t);
    Down(ctx.up, t1, back);
    Down(Below(ctx.up, t1, back), o1, back);
    ghost var deep, far := Below(Below(ctx.up, t1, back), o1, back), Far(ctx.side, o);
    if node == p.left {
      Paint(s.right, Black, deep, far);
    } else {
      Paint(s.left, Black, deep, far);
    }
    Up(deep, far.(color := Black));
    Up(deep.up, Upper(deep, far.(color := Black)));
    assert Upper(deep.up, Upper(deep, far.(color := Black))) == Case6Colors(ctx, t);
    Case6Turned(ctx, t);
    Down(ctx.up, Case6Colors(ctx, t), ctx.side);
    SiblingFields(ctx.(color := Black, other := Upper(deep, far.(color := Black))), t);
    if node == p.left {
      var _ := RotateLeft(p, ctx.up, Case6Colors(ctx, t));
    } else {
      var _ := RotateRight(p, ctx.up, Case6Colors(ctx, t));
    }
    Case6Good(ctx, t);
    Repaired(ctx, t, Case6(ctx, t));
    whole := Plug(ctx.up, Case6(ctx, t));
  }

  // ---------- Case 5: only the near child of the sibling is red ----------

  ghost function NearRed(ctx: Ctx): bool {
    && ctx.Under? && ctx.other.Bin? && ctx.other.color == Black
    && RootBlack(Far(ctx.side, ctx.other)) && !RootBlack(Near(ctx.side, ctx.other))
  }

  /** The sibling with the colours of itself and its near child exchanged. */
  ghost function Case5Colors(ctx: Ctx): Tree
    requires NearRed(ctx)
  {
    var o := ctx.other;
    Join(ctx.side, Red, Near(ctx.side, o).(color := Black), o.node, o.data, Far(ctx.side, o))
  }

  /** The context after the rotation at the sibling. */
  ghost function Case5(ctx: Ctx): Ctx
    requires NearRed(ctx)
  {
    ctx.(other := Rotated(Opposite(ctx.side), Case5Colors(ctx)))
  }

  lemma Case5Good(ctx: Ctx, t: Tree)
    requires Deficient(ctx, t) && NearRed(ctx)
    ensures Deficient(Case5(ctx), t) && FarRed(Case5(ctx))
  {
    DeficientParts(ctx, t);
    var o, s := ctx.other, ctx.side;
    var k := Near(s, o);
    var low := Join(Opposite(s), Red, Far(s, o), o.node, o.data, Far(s, k));
    assert Good(k.left) && Good(k.right) && RootBlack(Far(s, k));
    assert Good(low) && Height(low) == Height(t) + 0 + 0;
    assert Case5(ctx).other == Join(Opposite(s), Black, low, k.node, k.data, Near(s, k));
    assert Good(Case5(ctx).other);
  }

  lemma Case5Pairs(ctx: Ctx, t: Tree)
    requires NearRed(ctx)
    ensures InOrder(Upper(Case5(ctx), t)) == InOrder(Upper(ctx, t))
      && Nodes(Upper(Case5(ctx), t)) == Nodes(Upper(ctx, t))
    ensures Footprint(Case5(ctx), t) == Footprint(ctx, t)
  {
    var o := ctx.other;
    var k := Near(ctx.side, o).(color := Black);
    assert InOrder(k) == InOrder(Near(ctx.side, o)) && Nodes(k) == Nodes(Near(ctx.side, o));
    assert InOrder(Case5Colors(ctx)) == InOrder(o) && Nodes(Case5Colors(ctx)) == Nodes(o);
    RotationKeepsOrder(Opposite(ctx.side), Case5Colors(ctx));
  }

  /** What is rebuilt from another view of the same pairs is rebuilt. */
  lemma SameView(ctx: Ctx, t: Tree, ctx': Ctx, t': Tree, whole: Tree)
    requires ctx.Under? && ctx'.Under? && ctx'.up == ctx.up
    requires InOrder(Upper(ctx', t')) == InOrder(Upper(ctx, t)) && Nodes(Upper(ctx', t')) == Nodes(Upper(ctx, t))
    requires Rebuilt(ctx', t', whole)
    ensures Rebuilt(ctx, t, whole)
  {
    SamePairs(ctx, t, Upper(ctx', t'));
    SamePairs(ctx', t', Upper(ctx', t'));
  }

  method DeleteNodeComplex5(p: Node, node: Node?, ghost ctx: Ctx, ghost t: Tree) returns (ghost whole: Tree)
    requires Focus(ctx, t) && Deficient(ctx, t) && ctx.Under? && p == ctx.node && node == Root(t)
    requires FarRed(ctx) || NearRed(ctx)
    modifies Footprint(ctx, t)
    ensures Focus(Top, whole) && RedBlack(whole) && Rebuilt(ctx, t, whole)
  {
    hide Focus, Footprint, Nodes, CtxNodes, Deficient, Rebuilt, Good, RedBlack, GoodCtx;
    SiblingFields(ctx, t);
    Cross(ctx, t);
    var s := SiblingOf(p, node);
    ghost var across, o, back := Across(ctx, t), ctx.other, Opposite(ctx.side);
    ghost var near, o1, c := Near(ctx.side, o), o.(color := Red), ctx;
    if s.color == Black {
      if node == p.left && NotRed(s.right) && s.left != null && s.left.color == Red {
        Paint(s, Red, across, o);
        Down(across, o1, Left);
        BinFields(across, o1);
        Paint(s.left, Black, Below(across, o1, Left), near);
        Up(Below(across, o1, Left), near.(color := Black));
        var _ := RotateRight(s, across, Case5Colors(ctx));
        c := Case5(ctx);
      } else if node == p.right && NotRed(s.left) && s.right != null && s.right.color == Red {
        Paint(s, Red, across, o);
        Down(across, o1, Right);
        BinFields(across, o1);
        Paint(s.right, Black, Below(across, o1, Right), near);
        Up(Below(across, o1, Right), near.(color := Black));
        var _ := RotateLeft(s, across, Case5Colors(ctx));
        c := Case5(ctx);
      }
    }
    if c != ctx {
      Up(across, c.other);
      Down(ctx.up, Upper(c, t), ctx.side);
      Case5Good(ctx, t);
      Case5Pairs(ctx, t);
    }
    whole := DeleteNodeComplex6(p, node, c, t);
    if c != ctx {
      SameView(ctx, t, c, t, whole);
    }
  }

  // ---------- Cases 3 and 4: sibling and its children are black ----------

  ghost predicate AllBlack(ctx: Ctx) {
    && ctx.Under? && ctx.other.Bin? && ctx.other.color == Black
    && RootBlack(ctx.other.left) && RootBlack(ctx.other.right)
  }

  /** The sibling red, the parent black. */
  ghost function SiblingRed(ctx: Ctx, t: Tree): Tree
    requires AllBlack(ctx)
  {
    Join(ctx.side, Black, t, ctx.node, ctx.data, ctx.other.(color := Red))
  }

  lemma SiblingRedGood(ctx: Ctx, t: Tree)
    requires Deficient(ctx, t) && AllBlack(ctx)
    ensures Good(SiblingRed(ctx, t)) && RootBlack(SiblingRed(ctx, t))
    ensures Height(SiblingRed(ctx, t)) == Height(t) + 1
    ensures GoodCtx(ctx.up, Height(t) + 1 + BlackOne(ctx.color))
    ensures InOrder(SiblingRed(ctx, t)) == InOrder(Upper(ctx, t)) && Nodes(SiblingRed(ctx, t)) == Nodes(Upper(ctx, t))
    ensures Footprint(ctx.up, SiblingRed(ctx, t)) == Footprint(ctx, t)
  {
    DeficientParts(ctx, t);
    var o := ctx.other.(color := Red);
    assert Good(o) && Height(o) == Height(t);
    assert InOrder(o) == InOrder(ctx.other) && Nodes(o) == Nodes(ctx.other);
  }

  method DeleteNodeComplex4(p: Node, node: Node?, ghost ctx: Ctx, ghost t: Tree) returns (ghost whole: Tree)
    requires Focus(ctx, t) && Deficient(ctx, t) && ctx.Under? && p == ctx.node && node == Root(t)
    requires Sibling(ctx).Bin? && Sibling(ctx).color == Black && (AllBlack(ctx) ==> ctx.color == Red)
    modifies Footprint(ctx, t)
    ensures Focus(Top, whole) && RedBlack(whole) && Rebuilt(ctx, t, whole)
  {
    hide Focus, Footprint, Nodes, CtxNodes, Deficient, Rebuilt, Good, RedBlack, GoodCtx;
    SiblingFields(ctx, t);
    Cross(ctx, t);
    var s := SiblingOf(p, node);
    if p.color == Red && s.color == Black && NotRed(s.left) && NotRed(s.right) {
      Paint(s, Red, Across(ctx, t), ctx.other);
      Up(Across(ctx, t), ctx.other.(color := Red));
      Paint(p, Black, ctx.up, Upper(Across(ctx, t), ctx.other.(color := Red)));
      SiblingRedGood(ctx, t);
      Repaired(ctx, t, SiblingRed(ctx, t));
      whole := Plug(ctx.up, SiblingRed(ctx, t));
    } else {
      whole := DeleteNodeComplex5(p, node, ctx, t);
    }
  }

  method DeleteNodeComplex3(p: Node, node: Node?, ghost ctx: Ctx, ghost t: Tree) returns (ghost whole: Tree)
    requires Focus(ctx, t) && Deficient(ctx, t) && ctx.Under? && p == ctx.node && node == Root(t)
    requires Sibling(ctx).Bin? && Sibling(ctx).color == Black
    modifies Footprint(ctx, t)
    ensures Focus(Top, whole) && RedBlack(whole) && Rebuilt(ctx, t, whole)
    decreases if ctx.color == Red then 0 else Depth(ctx), 0
  {
    hide Focus, Footprint, Nodes, CtxNodes, Deficient, Rebuilt, Good, RedBlack, GoodCtx;
    SiblingFields(ctx, t);
    Cross(ctx, t);
    var s := SiblingOf(p, node);
    if p.color == Black && s.color == Black && NotRed(s.left) && NotRed(s.right) {
      Paint(s, Red, Across(ctx, t), ctx.other);
      Up(Across(ctx, t), ctx.other.(color := Red));
      SiblingRedGood(ctx, t);
      DeficientUp(ctx, t);
      FocusFields(ctx.up, SiblingRed(ctx, t));
      whole := DeleteNodeComplex1(Parent(p), p, ctx.up, SiblingRed(ctx, t));
      RebuiltUp(ctx, t, SiblingRed(ctx, t), whole);
    } else {
      whole := DeleteNodeComplex4(p, node, ctx, t);
    }
  }

  lemma DeficientUp(ctx: Ctx, t: Tree)
    requires Deficient(ctx, t) && AllBlack(ctx) && ctx.color == Black
    ensures Deficient(ctx.up, SiblingRed(ctx, t))
  {
    SiblingRedGood(ctx, t);
  }

  lemma RebuiltUp(ctx: Ctx, t: Tree, top: Tree, whole: Tree)
    requires ctx.Under? && InOrder(top) == InOrder(Upper(ctx, t)) && Nodes(top) == Nodes(Upper(ctx, t))
    requires Rebuilt(ctx.up, top, whole)
    ensures Rebuilt(ctx, t, whole)
  {
    SamePairs(ctx, t, top);
  }

  /** Nothing is to be done when the short subtree is the whole tree. */
  method DeleteNodeComplex1(p: Node?, node: Node?, ghost ctx: Ctx, ghost t: Tree) returns (ghost whole: Tree)
    requires Focus(ctx, t) && Deficient(ctx, t) && p == ParentOf(ctx) && node == Root(t)
    modifies Footprint(ctx, t)
    ensures Focus(Top, whole) && RedBlack(whole) && Rebuilt(ctx, t, whole)
    decreases Depth(ctx), 2
  {
    if p != null {
      hide Focus, Footprint, Deficient, Rebuilt, RedBlack;
      whole := DeleteNodeComplex2(p, node, ctx, t);
    } else {
      whole := t;
    }
  }

  // ---------- Case 2: a red sibling ----------

  /** The context after a red sibling went above the parent. */
  ghost function Case2(ctx: Ctx): Ctx
    requires ctx.Under? && ctx.other.Bin?
  {
    var o := ctx.other;
    var up := Under(ctx.up, ctx.side, Black, o.node, o.data, Far(ctx.side, o));
    Under(up, ctx.side, Red, ctx.node, ctx.data, Near(ctx.side, o))
  }

  ghost function Case2Colors(ctx: Ctx, t: Tree): Tree
    requires ctx.Under? && ctx.other.Bin?
  {
    Join(ctx.side, Red, t, ctx.node, ctx.data, ctx.other.(color := Black))
  }

  lemma Case2Good(ctx: Ctx, t: Tree)
    requires Deficient(ctx, t) && ctx.Under? && ctx.other.Bin? && ctx.other.color == Red
    ensures Deficient(Case2(ctx), t) && Sibling(Case2(ctx)).Bin? && Sibling(Case2(ctx)).color == Black
  {
    DeficientParts(ctx, t);
    assert Good(Near(ctx.side, ctx.other)) && Good(Far(ctx.side, ctx.other));
  }

  lemma Case2Turned(ctx: Ctx, t: Tree)
    requires ctx.Under? && ctx.other.Bin?
    ensures Rotated(ctx.side, Case2Colors(ctx, t)) == Upper(Case2(ctx).up, Upper(Case2(ctx), t))
    ensures InOrder(Upper(Case2(ctx).up, Upper(Case2(ctx), t))) == InOrder(Upper(ctx, t))
    ensures Nodes(Upper(Case2(ctx).up, Upper(Case2(ctx), t))) == Nodes(Upper(ctx, t))
    ensures Footprint(Case2(ctx), t) == Footprint(ctx, t) && Footprint(ctx.up, Case2Colors(ctx, t)) == Footprint(ctx, t)
  {
    var o := ctx.other.(color := Black);
    assert InOrder(o) == InOrder(ctx.other) && Nodes(o) == Nodes(ctx.other);
    RotationKeepsOrder(ctx.side, Case2Colors(ctx, t));
    assert Nodes(Case2Colors(ctx, t)) == Nodes(Upper(ctx, t));
    UpperFootprint(Case2(ctx), t);
    UpperFootprint(Case2(ctx).up, Upper(Case2(ctx), t));
    UpperFootprint(ctx, t);
  }

  lemma Case2Pairs(ctx: Ctx, t: Tree, whole: Tree)
    requires ctx.Under? && ctx.other.Bin? && Rebuilt(Case2(ctx), t, whole)
    ensures Rebuilt(ctx, t, whole)
  {
    hide Rebuilt, InOrder, Nodes, Before, After, CtxNodes;
    Case2Turned(ctx, t);
    RebuiltDown(Case2(ctx), t, whole);
    RebuiltUp(ctx, t, Upper(Case2(ctx).up, Upper(Case2(ctx), t)), whole);
  }

  lemma RebuiltDown(ctx: Ctx, t: Tree, whole: Tree)
    requires ctx.Under? && ctx.up.Under? && Rebuilt(ctx, t, whole)
    ensures Rebuilt(ctx.up.up, Upper(ctx.up, Upper(ctx, t)), whole)
  {
    SamePairs(ctx, t, Upper(ctx, t));
    SamePairs(ctx.up, Upper(ctx, t), Upper(ctx.up, Upper(ctx, t)));
  }

  method DeleteNodeComplex2(p: Node, node: Node?, ghost ctx: Ctx, ghost t: Tree) returns (ghost whole: Tree)
    requires Focus(ctx, t) && Deficient(ctx, t) && ctx.Under? && p == ctx.node && node == Root(t)
    modifies Footprint(ctx, t)
    ensures Focus(Top, whole) && RedBlack(whole) && Rebuilt(ctx, t, whole)
    decreases Depth(ctx), 1
  {
    hide Focus, Footprint, Nodes, CtxNodes, Deficient, Rebuilt, Good, RedBlack, GoodCtx;
    DeficientParts(ctx, t);
    SiblingFields(ctx, t);
    Cross(ctx, t);
    var s := SiblingOf(p, node);
    ghost var c := ctx;
    if s.color == Red {
      ghost var across, o := Across(ctx, t), ctx.other;
      Case2Good(ctx, t);
      Case2Turned(ctx, t);
      Up(ctx, t);
      Paint(p, Red, ctx.up, Upper(ctx, t));
      ghost var red := Upper(ctx, t).(color := Red);
      Down(ctx.up, red, Opposite(ctx.side));
      Paint(s, Black, Below(ctx.up, red, Opposite(ctx.side)), o);
      Up(Below(ctx.up, red, Opposite(ctx.side)), o.(color := Black));
      Down(ctx.up, Case2Colors(ctx, t), ctx.side);
      SiblingFields(ctx.(color := Red, other := o.(color := Black)), t);
      if node == p.left {
        var _ := RotateLeft(p, ctx.up, Case2Colors(ctx, t));
      } else {
        var _ := RotateRight(p, ctx.up, Case2Colors(ctx, t));
      }
      c := Case2(ctx);
      Down(ctx.up, Upper(c.up, Upper(c, t)), ctx.side);
      Down(c.up, Upper(c, t), ctx.side);
    }
    whole := DeleteNodeComplex3(p, node, c, t);
    if c != ctx { Case2Pairs(ctx, t, whole); }
  }
}
