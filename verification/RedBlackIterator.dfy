/** The iterator of `RedBlackTree`: walks the pairs in key order by following links. */
module RedBlackIterator {
  import opened RedBlackShapes
  import opened RedBlackRotations
  import opened RedBlackInsertion
  import opened RedBlackPaths
  import opened RedBlack

  /** The pairs from a focused node on. */
  ghost function Remaining(ctx: Ctx, t: Tree): seq<Data> {
    match t
    case Leaf => []
    case Bin(_, _, _, d, r) => [d] + InOrder(r) + After(ctx)
  }

  /** The node at which the walk up, from the right child of a node, finds that it came from a left child. */
  ghost function Turn(ctx: Ctx): Ctx {
    match ctx
    case Top => Top
    case Under(up, side, _, _, _, _) => if side == Left then ctx else Turn(up)
  }

  ghost function TurnTree(ctx: Ctx, t: Tree): Tree
    decreases ctx
  {
    match ctx
    case Top => t
    case Under(up, side, _, _, _, _) => if side == Left then t else TurnTree(up, Upper(ctx, t))
  }

  /** The focus on the next node in key order, or on no node. */
  ghost function NextCtx(ctx: Ctx, t: Tree): Ctx
    requires t.Bin?
  {
    if t.right.Bin? then EndCtx(Left, Below(ctx, t, Right), t.right)
    else if Turn(ctx).Under? then Turn(ctx).up
    else Top
  }

  ghost function NextTree(ctx: Ctx, t: Tree): Tree
    requires t.Bin?
  {
    if t.right.Bin? then EndTree(Left, t.right)
    else if Turn(ctx).Under? then Upper(Turn(ctx), TurnTree(ctx, t))
    else Leaf
  }

  lemma {:induction false} TurnFocus(ctx: Ctx, t: Tree)
    requires Focus(ctx, t)
    ensures Focus(Turn(ctx), TurnTree(ctx, t)) && Plug(Turn(ctx), TurnTree(ctx, t)) == Plug(ctx, t)
    ensures After(Turn(ctx)) == After(ctx)
    decreases ctx
  {
    hide Focus;
    if ctx.Under? && ctx.side == Right {
      Up(ctx, t);
      TurnFocus(ctx.up, Upper(ctx, t));
    }
  }

  /** One pair further on. */
  lemma NextOrder(ctx: Ctx, t: Tree)
    requires t.Bin?
    ensures Remaining(ctx, t) == [t.data] + Remaining(NextCtx(ctx, t), NextTree(ctx, t))
  {
    if t.right.Bin? {
      var below, e := Below(ctx, t, Right), EndTree(Left, t.right);
      EndNear(Left, t.right);
      EndOrder(Left, below, t.right);
      assert InOrder(Leaf) == [];
      assert InOrder(e) == [e.data] + InOrder(e.right);
      assert After(below) == After(ctx);
      assert InOrder(t.right) + After(ctx) == Remaining(NextCtx(ctx, t), NextTree(ctx, t));
    } else {
      TurnLeft(ctx);
      assert InOrder(t.right) == [];
      assert After(Turn(ctx)) == Remaining(NextCtx(ctx, t), NextTree(ctx, t));
    }
  }

  lemma NextFocus(ctx: Ctx, t: Tree)
    requires Focus(ctx, t) && t.Bin?
    ensures Focus(NextCtx(ctx, t), NextTree(ctx, t))
    ensures NextTree(ctx, t).Bin? ==> Plug(NextCtx(ctx, t), NextTree(ctx, t)) == Plug(ctx, t)
  {
    if t.right.Bin? {
      hide Focus;
      Down(ctx, t, Right);
      EndFocus(Left, Below(ctx, t, Right), t.right);
      EndPlug(Left, Below(ctx, t, Right), t.right);
    } else {
      TurnFocus(ctx, t);
      if Turn(ctx).Under? {
        hide Focus;
        Up(Turn(ctx), TurnTree(ctx, t));
      }
    }
  }

  lemma {:induction false} TurnLeft(ctx: Ctx)
    ensures Turn(ctx).Under? ==> Turn(ctx).side == Left
    ensures After(Turn(ctx)) == After(ctx)
  {
    if ctx.Under? && ctx.side == Right { TurnLeft(ctx.up); }
  }

  lemma {:induction false} EndPlug(side: Side, ctx: Ctx, t: Tree)
    ensures Plug(EndCtx(side, ctx, t), EndTree(side, t)) == Plug(ctx, t)
    decreases t
  {
    if t.Bin? && Near(side, t).Bin? { EndPlug(side, Below(ctx, t, side), Near(side, t)); }
  }

  class Iterator {
    var current: Node?
    var value: Data

    constructor (tree: RedBlackTree)
      requires tree.Valid()
      ensures current == tree.leftmost
    {
      current := tree.leftmost;
      value := Data(0, 0);
    }

    /**
     * Steps to the next node. `garbage` is what the variable `grand` holds before anything is assigned to it; the
     * iterator takes it over at a root that has no right child.
     */
    method Next(garbage: Node?, ghost ctx: Ctx, ghost t: Tree) returns (more: bool)
      requires current == Root(t) && Focus(ctx, t)
      modifies this
      ensures (more <==> t.Bin?) && Focus(ctx, t)
      ensures t.Leaf? ==> current == null && value == old(value)
      ensures t.Bin? ==> value == t.data
      ensures t.Bin? ==> current == if ctx == Top && t.right.Leaf? then garbage else Root(NextTree(ctx, t))
    {
      RootIn(t);
      if current != null {
        FocusFields(ctx, t);
        value := current.data;
      }
      if current == null {
        return false;
      }
      if current.right != null {
        RootIn(t.right);
        Down(ctx, t, Right);
        // The loop of the source here is the one of `min`.
        current := MinNode(current.right, Below(ctx, t, Right), t.right);
        return true;
      }
      RootIn(t.right);
      Relatives(ctx, t);
      if current.parent != null && current.parent.left == current {
        current := current.parent;
        return true;
      }
      var parent, grand := current.parent, garbage;
      if parent != null {
        grand := parent.parent;
      } else {
        current := parent;
      }
      if parent != null {
        grand := ClimbRight(parent, grand, ctx, t);
      }
      current := grand;
      return true;
    }
  }

  /** The loop at the end of `Next`: up as long as the way comes from a right child. */
  method ClimbRight(from: Node, above: Node?, ghost ctx: Ctx, ghost t: Tree) returns (grand: Node?)
    requires Focus(ctx, t) && t.Bin? && ctx.Under? && ctx.side == Right
    requires from == ctx.node && above == ParentOf(ctx.up)
    ensures Focus(ctx, t)
    ensures grand == ParentOf(Turn(ctx))
  {
    var parent: Node? := from;
    grand := above;
    ghost var c, s := ctx, t;
    while parent != null && grand != null && grand.right == parent
      invariant Focus(c, s) && s.Bin? && c.Under? && c.side == Right
      invariant parent == c.node && grand == ParentOf(c.up) && Turn(c) == Turn(ctx)
      invariant Focus(ctx, t)
      decreases c
    {
      Relatives(c, s);
      Up(c, s);
      c, s := c.up, Upper(c, s);
      FocusFields(c, s);
      parent := grand;
      grand := grand.parent;
    }
    Relatives(c, s);
  }

  /** Where the iterator stands after the last pair. */
  ghost function WalkEnd(whole: Tree, garbage: seq<Node?>): Node?
    requires |garbage| == |InOrder(whole)|
  {
    if whole.Leaf? || whole.right.Bin? then null else garbage[|garbage| - 1]
  }

  /** One true for each of `n` nodes, and a false once the walk is `over`. */
  function Answers(n: nat, over: bool): seq<bool> {
    seq(n, _ => true) + (if over then [false] else [])
  }

  /**
   * As many calls of `Next` as there are nodes: each returns true, and together they yield the pairs in order. Then
   * the iterator is at its end when the tree is empty or its root has a right child, and one more call returns false;
   * otherwise it holds what the uninitialised variable held in the last call.
   */
  method Walk(it: Iterator, tree: RedBlackTree, garbage: seq<Node?>) returns (pairs: seq<Data>, answers: seq<bool>)
    requires tree.Valid() && it.current == tree.leftmost && |garbage| == |tree.Contents()|
    modifies it
    ensures pairs == old(tree.Contents())
    ensures it.current == WalkEnd(old(tree.shape), garbage)
    ensures answers == Answers(|garbage|, it.current == null)
  {
    ghost var whole := tree.shape;
    ghost var c, s := WalkStart(whole);
    hide Focus, InOrder, Plug, NextCtx, NextTree, EndTree, EndCtx;
    pairs, answers := [], [];
    var i := 0;
    while i < |garbage|
      invariant 0 <= i <= |garbage| && |Remaining(c, s)| == |garbage| - i
      invariant pairs + Remaining(c, s) == InOrder(whole)
      invariant answers == Answers(i, false)
      invariant Focus(c, s) && (s.Bin? ==> Plug(c, s) == whole)
      invariant it.current == if i == |garbage| then WalkEnd(whole, garbage) else Root(s)
    {
      var more := it.Next(garbage[i], c, s);
      NextOrder(c, s);
      NextFocus(c, s);
      LastStep(c, s, whole);
      MovedOn(pairs, s.data, Remaining(NextCtx(c, s), NextTree(c, s)));
      pairs, answers := pairs + [it.value], answers + [more];
      c, s := NextCtx(c, s), NextTree(c, s);
      i := i + 1;
    }
    if it.current == null {
      NoFocus();
      var more := it.Next(null, Top, Leaf);
      answers := answers + [more];
    }
  }

  lemma NoFocus()
    ensures Focus(Top, Leaf) && Root(Leaf) == null
  {
  }

  lemma NoBlackNode(t: Tree)
    requires Good(t) && Height(t) == 0
    ensures t.Leaf? || (t.color == Red && Good(t.left) && Good(t.right) && Height(t.left) == Height(t.right) == 0)
    ensures RootBlack(t) ==> t.Leaf?
  {
  }

  /** Without a right child a red-black tree is a black root with at most one red child. */
  lemma FewWithoutRight(t: Tree)
    requires Good(t) && t.Bin? && t.right.Leaf?
    ensures |InOrder(t)| <= 2
  {
    NoBlackNode(t.left);
    if t.left.Bin? {
      NoBlackNode(t.left.left);
      NoBlackNode(t.left.right);
      assert InOrder(t.left) == [t.left.data];
    }
  }

  lemma ThreeHaveRight(t: Tree)
    requires Good(t) && |InOrder(t)| >= 3
    ensures t.right.Bin?
  {
    if t.right.Leaf? { FewWithoutRight(t); }
  }

  /**
   * In a tree of three or more nodes `Next` returns true once per node, yields the pairs in order, and then returns
   * false.
   */
  method WalkOfThreeOrMore(it: Iterator, tree: RedBlackTree, garbage: seq<Node?>)
    returns (pairs: seq<Data>, answers: seq<bool>)
    requires tree.Valid() && it.current == tree.leftmost && |garbage| == |tree.Contents()| >= 3
    modifies it
    ensures pairs == old(tree.Contents()) && it.current == null
    ensures answers == Answers(|pairs|, true)
  {
    ThreeHaveRight(tree.shape);
    pairs, answers := Walk(it, tree, garbage);
  }

  /** After the only pair of a tree the iterator stands wherever the uninitialised variable pointed. */
  method WalkOfOne(d: Data, g: Node?) returns (it: Iterator, pairs: seq<Data>, answers: seq<bool>)
    ensures pairs == [d] && it.current == g
    ensures answers == Answers(1, g == null)
  {
    var tree := new RedBlackTree();
    tree.Insert(d);
    InsertedAlone(d);
    OneHasNoRight(tree.shape);
    it := new Iterator(tree);
    pairs, answers := Walk(it, tree, [g]);
  }

  lemma InsertedAlone(d: Data)
    ensures Inserted([], d) == [d]
  {
  }

  lemma OneHasNoRight(t: Tree)
    requires |InOrder(t)| == 1
    ensures t.Bin? && t.right.Leaf?
  {
  }

  lemma MovedOn(a: seq<Data>, d: Data, b: seq<Data>)
    ensures a + ([d] + b) == (a + [d]) + b && |[d] + b| == 1 + |b|
  {
  }

  /** The step from the last pair ends the walk, unless the last pair is at the root. */
  lemma LastStep(ctx: Ctx, t: Tree, whole: Tree)
    requires t.Bin? && Plug(ctx, t) == whole
    ensures whole.Bin?
    ensures ctx == Top && t.right.Leaf? <==> NextTree(ctx, t).Leaf? && whole.right.Leaf?
  {
    if ctx.Under? {
      RootAbove(ctx, t);
      if Turn(ctx) == Top { RightEdge(ctx, t); }
      if t.right.Bin? { EndNear(Left, t.right); }
    }
  }

  lemma {:induction false} RightEdge(ctx: Ctx, t: Tree)
    requires ctx.Under? && Turn(ctx) == Top && t.Bin?
    ensures Plug(ctx, t).Bin? && Plug(ctx, t).right.Bin?
    decreases ctx
  {
    if ctx.up.Under? { RightEdge(ctx.up, Upper(ctx, t)); }
  }

  lemma WalkStart(whole: Tree) returns (c: Ctx, s: Tree)
    requires Focus(Top, whole)
    ensures Focus(c, s) && Plug(c, s) == whole && Remaining(c, s) == InOrder(whole)
    ensures s == EndTree(Left, whole)
  {
    if whole.Leaf? {
      return Top, Leaf;
    }
    EndFocus(Left, Top, whole);
    EndPlug(Left, Top, whole);
    EndOrder(Left, Top, whole);
    EndNear(Left, whole);
    c, s := EndCtx(Left, Top, whole), EndTree(Left, whole);
    assert InOrder(Leaf) == [];
    assert InOrder(s) == [s.data] + InOrder(s.right);
    assert InOrder(whole) + After(Top) == InOrder(whole);
  }
}
