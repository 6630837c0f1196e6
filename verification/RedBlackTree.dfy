/** `RedBlackTree`: the operations on the whole tree. */
module RedBlack {
  import opened RedBlackShapes
  import opened RedBlackRotations
  import opened RedBlackInsertion
  import opened RedBlackDeletion
  import opened RedBlackPaths

  // ---------- Nodes that come and go ----------

  /** Another subtree hangs where `was` hung. */
  twostate lemma Grafted(ctx: Ctx, new was: Tree, new now: Tree)
    requires old(allocated(was))
    requires old(Focus(ctx, was))
    requires Distinct(now) && Linked(now, ParentOf(ctx)) && Nodes(now) !! CtxNodes(ctx)
    requires ctx.Under? ==>
      && ctx.node.data == old(ctx.node.data) && ctx.node.color == old(ctx.node.color)
      && ctx.node.parent == old(ctx.node.parent)
      && ctx.node.left == (if ctx.side == Left then Root(now) else old(ctx.node.left))
      && ctx.node.right == (if ctx.side == Left then old(ctx.node.right) else Root(now))
    requires Untouched(CtxNodes(ctx) - Lowest(ctx))
    ensures Focus(ctx, now)
  {
    Regrafted(ctx, Root(was), Root(now));
  }

  ghost function Single(n: Node, data: Data): Tree {
    Bin(Red, Leaf, n, data, Leaf)
  }

  /** Hangs a new node below the lowest fitting node. */
  method InsertByKey(root: Node, newNode: Node, ghost ctx: Ctx, ghost t: Tree)
    requires t.Bin? && t.node == root && Focus(ctx, t) && newNode !in Footprint(ctx, t)
    requires newNode.color == Red && newNode.left == null && newNode.right == null
    modifies Nodes(t), newNode`parent
    ensures Focus(Slot(ctx, t, newNode.data.key), Single(newNode, newNode.data))
    decreases t
  {
    FocusFields(ctx, t);
    RootIn(t.left);
    RootIn(t.right);
    hide Focus, CtxNodes;
    ghost var side := if root.data.key > newNode.data.key then Left else Right;
    Down(ctx, t, side);
    ghost var below := Below(ctx, t, side);
    if root.data.key > newNode.data.key {
      if root.left != null {
        InsertByKey(root.left, newNode, below, t.left);
        return;
      }
      root.left := newNode;
    } else {
      if root.right != null {
        InsertByKey(root.right, newNode, below, t.right);
        return;
      }
      root.right := newNode;
    }
    newNode.parent := root;
    assert CtxNodes(below) <= Nodes(t) + CtxNodes(ctx);
    assert Untouched(Nodes(t) + CtxNodes(ctx) - {root});
    UntouchedPart(Nodes(t) + CtxNodes(ctx) - {root}, CtxNodes(below) - {root});
    Hung(newNode, below);
  }

  twostate lemma Hung(new n: Node, ctx: Ctx)
    requires old(allocated(n))
    requires old(Focus(ctx, Leaf)) && ctx.Under? && n !in CtxNodes(ctx)
    requires n.color == Red && n.left == null && n.right == null && n.parent == ctx.node
    requires ctx.node.data == old(ctx.node.data) && ctx.node.color == old(ctx.node.color)
    requires ctx.node.parent == old(ctx.node.parent)
    requires ctx.node.left == (if ctx.side == Left then n else old(ctx.node.left))
    requires ctx.node.right == (if ctx.side == Left then old(ctx.node.right) else n)
    requires Untouched(CtxNodes(ctx) - Lowest(ctx))
    ensures Focus(ctx, Single(n, n.data))
  {
    Grafted(ctx, Leaf, Single(n, n.data));
  }

  // ---------- Reading the tree ----------

  /** `search`: walks down by comparing keys. */
  function Search(root: Node?, key: int, ghost parent: Node?, ghost t: Tree): (r: Node?)
    requires Linked(t, parent) && root == Root(t)
    reads Nodes(t)
    ensures r == Root(Found(t, key))
    decreases t
  {
    if root == null then null
    else if root.data.key == key then root
    else if root.data.key > key then Search(root.left, key, root, t.left)
    else Search(root.right, key, root, t.right)
  }

  /** `verify_color`: one more than the black height, or -1 when the colours are wrong. */
  function VerifyColor(root: Node?, ghost parent: Node?, ghost t: Tree): (r: int)
    requires Linked(t, parent) && root == Root(t)
    reads Nodes(t)
    ensures r == if Good(t) then Height(t) + 1 else -1
    decreases t
  {
    if root == null then 1 else
    RootIn(t.left);
    RootIn(t.right);
    assert Linked(t.left, root) && Linked(t.right, root);
    if root.color == Red && !(NotRed(root.left) && NotRed(root.right)) then -1
    else
      var left := VerifyColor(root.left, root, t.left);
      var right := VerifyColor(root.right, root, t.right);
      if left != right || right == -1 then -1
      else left + (if root.color == Black then 1 else 0)
  }

  /** `min` and `max`: the end of the tree on one side. */
  method MinNode(root: Node?, ghost ctx: Ctx, ghost t: Tree) returns (r: Node?)
    requires Focus(ctx, t) && root == Root(t)
    ensures r == Root(EndTree(Left, t)) && Focus(ctx, t)
  {
    RootIn(t);
    r := root;
    if root != null {
      ghost var c, s := ctx, t;
      FocusFields(c, s);
      while r.left != null
        invariant Focus(ctx, t) && Focus(c, s) && s.Bin? && r == s.node && r.left == Root(s.left)
        invariant EndTree(Left, s) == EndTree(Left, t)
        decreases s
      {
        RootIn(s.left);
        Down(c, s, Left);
        c, s := Below(c, s, Left), s.left;
        r := r.left;
        FocusFields(c, s);
      }
      RootIn(s.left);
    }
  }

  method MaxNode(root: Node?, ghost ctx: Ctx, ghost t: Tree) returns (r: Node?)
    requires Focus(ctx, t) && root == Root(t)
    ensures r == Root(EndTree(Right, t)) && Focus(ctx, t)
  {
    RootIn(t);
    r := root;
    if root != null {
      ghost var c, s := ctx, t;
      FocusFields(c, s);
      while r.right != null
        invariant Focus(ctx, t) && Focus(c, s) && s.Bin? && r == s.node && r.right == Root(s.right)
        invariant EndTree(Right, s) == EndTree(Right, t)
        decreases s
      {
        RootIn(s.right);
        Down(c, s, Right);
        c, s := Below(c, s, Right), s.right;
        r := r.right;
        FocusFields(c, s);
      }
      RootIn(s.right);
    }
  }

  // ---------- What an operation leaves ----------

  /** A linked red-black tree whose pairs are sorted by key. */
  ghost predicate WellFormed(whole: Tree)
    reads Nodes(whole)
  {
    Focus(Top, whole) && RedBlack(whole) && Sorted(InOrder(whole))
  }

  /** The place of a new key in a well-formed tree. */
  lemma NewPlaceOrder(whole: Tree, n: Node, data: Data)
    requires Sorted(InOrder(whole))
    ensures Before(Slot(Top, whole, data.key)) + InOrder(Single(n, data)) + After(Slot(Top, whole, data.key))
         == Inserted(InOrder(whole), data)
  {
    var slot := Slot(Top, whole, data.key);
    SlotOrder(Top, whole, data.key);
    assert InOrder(Single(n, data)) == [data];
    assert Before(slot) + After(slot) == InOrder(whole);
    hide Slot, Before, After, InOrder, Inserted;
    InsertedBetween(Before(slot), data, After(slot));
  }

  lemma NewPlaceColors(whole: Tree, n: Node, data: Data)
    requires RedBlack(whole)
    ensures Reddened(Slot(Top, whole, data.key), Single(n, data))
    ensures whole == Leaf ==> Slot(Top, whole, data.key) == Top
  {
    SlotGood(Top, whole, data.key);
    assert Height(Leaf) == 0 && Good(Single(n, data));
    assert Height(Single(n, data)) == 0;
  }

  lemma InsertedTree(t: Tree, n: Node, data: Data, whole: Tree)
    requires Sorted(InOrder(t)) && Rebuilt(Slot(Top, t, data.key), Single(n, data), whole)
    ensures InOrder(whole) == Inserted(InOrder(t), data) && Sorted(InOrder(whole))
    ensures Nodes(whole) == Footprint(Slot(Top, t, data.key), Single(n, data))
  {
    hide Slot, Inserted, Sorted, Nodes, CtxNodes;
    NewPlaceOrder(t, n, data);
    InsertedSorted(InOrder(t), data);
  }

  lemma AddedFootprint(whole: Tree, n: Node, data: Data)
    requires Focus(Top, whole)
    ensures Footprint(Slot(Top, whole, data.key), Single(n, data)) == Nodes(whole) + {n}
  {
    SlotFocus(Top, whole, data.key);
    assert Nodes(Single(n, data)) == {n};
    assert Nodes(Leaf) == {} && CtxNodes(Top) == {};
  }

  lemma AloneFocus(n: Node)
    requires n.color == Red && n.parent == null && n.left == null && n.right == null
    ensures Focus(Top, Single(n, n.data))
  {
  }

  // ---------- What a deletion leaves ----------

  /** A subtree of a red-black tree. */
  ghost predicate Fits(ctx: Ctx, t: Tree) {
    Good(t) && GoodCtx(ctx, Height(t)) && (RootBlack(t) || (ctx.Under? && ctx.color == Black))
  }

  ghost function OnlyChild(t: Tree): Tree
    requires t.Bin?
  {
    if t.right.Bin? then t.right else t.left
  }

  lemma Blackened(t: Tree)
    requires t.Bin? && Good(t)
    ensures Good(t.(color := Black))
    ensures Height(t.(color := Black)) == Height(t) + 1 - BlackOne(t.color)
  {
  }

  lemma OneChildColors(ctx: Ctx, t: Tree)
    requires t.Bin? && Fits(ctx, t) && (t.left.Leaf? || t.right.Leaf?)
    ensures t.color == Red ==> OnlyChild(t).Leaf? && Fits(ctx, Leaf)
    ensures t.color == Black && OnlyChild(t).Bin?
      ==> OnlyChild(t).color == Red && Fits(ctx, OnlyChild(t).(color := Black))
    ensures t.color == Black && OnlyChild(t).Leaf? ==> Deficient(ctx, Leaf)
  {
    var c := OnlyChild(t);
    assert Height(Leaf) == 0 && Good(Leaf);
    assert Good(c) && Height(c) == 0;
    if c.Bin? { Blackened(c); }
  }

  /** The tree is finished as it stands. */
  lemma Finished(ctx: Ctx, t: Tree)
    requires Focus(ctx, t) && Fits(ctx, t)
    ensures Focus(Top, Plug(ctx, t)) && RedBlack(Plug(ctx, t)) && Rebuilt(ctx, t, Plug(ctx, t))
  {
    hide Focus;
    Zip(ctx, t);
    PlugGood(ctx, t);
    PlugInOrder(ctx, t);
    PlugNodes(ctx, t);
  }

  /** The neighbour of `s` in the sequence of pairs that hangs in its subtree away from `side`. */
  ghost function Neighbour(side: Side, s: Tree): Tree
    requires s.Bin?
  {
    EndTree(side, Far(side, s))
  }

  ghost function NeighbourCtx(side: Side, ctx: Ctx, s: Tree): Ctx
    requires s.Bin?
  {
    EndCtx(side, Below(ctx, s, Opposite(side)), Far(side, s))
  }

  /** `s` with the pair of its neighbour. */
  ghost function Swapped(side: Side, s: Tree): Tree
    requires s.Bin? && Neighbour(side, s).Bin?
  {
    s.(data := Neighbour(side, s).data)
  }

  lemma NeighbourFits(side: Side, ctx: Ctx, s: Tree)
    requires s.Bin? && Far(side, s).Bin? && Fits(ctx, s)
    ensures Neighbour(side, s).Bin? && Near(side, Neighbour(side, s)).Leaf?
    ensures Fits(NeighbourCtx(side, ctx, Swapped(side, s)), Neighbour(side, s).(data := s.data))
  {
    EndOrder(side, Below(ctx, s, Opposite(side)), Far(side, s));
    var below := Below(ctx, Swapped(side, s), Opposite(side));
    assert GoodCtx(below, Height(Far(side, s)));
    EndGood(side, below, Far(side, s));
    var e := Neighbour(side, s);
    assert Good(e.(data := s.data)) && Height(e.(data := s.data)) == Height(e);
    EndNear(side, Far(side, s));
  }

  lemma {:induction false} EndNear(side: Side, t: Tree)
    requires t.Bin?
    ensures EndTree(side, t).Bin? && Near(side, EndTree(side, t)).Leaf?
  {
    if Near(side, t).Bin? { EndNear(side, Near(side, t)); }
  }

  /** Without the neighbour, whose pair moved to `s`, exactly the pair of `s` is missing. */
  lemma NeighbourOrder(side: Side, ctx: Ctx, s: Tree)
    requires s.Bin? && Far(side, s).Bin? && Neighbour(side, s).Bin? && Near(side, Neighbour(side, s)).Leaf?
    ensures
      var c := NeighbourCtx(side, ctx, Swapped(side, s));
      Before(c) + InOrder(Far(side, Neighbour(side, s))) + After(c)
      == Before(ctx) + (InOrder(s.left) + InOrder(s.right)) + After(ctx)
  {
    var below := Below(ctx, Swapped(side, s), Opposite(side));
    var e, c := Neighbour(side, s), NeighbourCtx(side, ctx, Swapped(side, s));
    EndOrder(side, below, Far(side, s));
    EndNeighbour(side, ctx, s);
    hide InOrder, Before, After, EndTree, EndCtx;
    if side == Left {
      Leftover(Before(ctx), InOrder(s.left), InOrder(s.right), After(ctx), e.data, InOrder(e.right), After(c));
    } else {
      LeftoverMirrored(Before(ctx), InOrder(s.left), InOrder(s.right), After(ctx), Before(c), InOrder(e.left), e.data);
    }
  }

  /** The sequences on either side of `Neighbour`, one step unfolded. */
  lemma EndNeighbour(side: Side, ctx: Ctx, s: Tree)
    requires s.Bin? && Far(side, s).Bin? && Neighbour(side, s).Bin? && Near(side, Neighbour(side, s)).Leaf?
    ensures var below := Below(ctx, Swapped(side, s), Opposite(side)); var e := Neighbour(side, s);
      if side == Left then
        InOrder(e) == [e.data] + InOrder(e.right) && Before(below) == Before(ctx) + InOrder(s.left) + [e.data]
        && After(below) == After(ctx)
      else
        InOrder(e) == InOrder(e.left) + [e.data] && After(below) == [e.data] + InOrder(s.right) + After(ctx)
        && Before(below) == Before(ctx)
  {
    assert InOrder(Leaf) == [];
  }

  lemma Leftover(a: seq<Data>, l: seq<Data>, r: seq<Data>, z: seq<Data>, d: Data, er: seq<Data>, ez: seq<Data>)
    requires [d] + er + ez == r + z
    ensures (a + l + [d]) + er + ez == a + (l + r) + z
  {
    assert (a + l + [d]) + er + ez == a + l + ([d] + er + ez);
    assert a + l + (r + z) == a + (l + r) + z;
  }

  lemma LeftoverMirrored(a: seq<Data>, l: seq<Data>, r: seq<Data>, z: seq<Data>, ea: seq<Data>, el: seq<Data>, d: Data)
    requires ea + (el + [d]) == a + l
    ensures ea + el + ([d] + r + z) == a + (l + r) + z
  {
    assert ea + el + ([d] + r + z) == (ea + (el + [d])) + r + z;
    assert (a + l) + r + z == a + (l + r) + z;
  }

  class RedBlackTree {
    // The three links of the header node.
    var root: Node?
    var leftmost: Node?
    var rightmost: Node?
    ghost var shape: Tree

    ghost predicate Valid()
      reads this, Nodes(shape)
    {
      && WellFormed(shape) && root == Root(shape)
      && leftmost == Root(EndTree(Left, shape)) && rightmost == Root(EndTree(Right, shape))
    }

    /** All pairs, in the order of their keys. */
    ghost function Contents(): seq<Data>
      reads this
    {
      InOrder(shape)
    }

    constructor ()
      ensures Valid() && Contents() == []
    {
      root, leftmost, rightmost := null, null, null;
      shape := Leaf;
    }

    /** Climbs from wherever the header points to the root of the tree. */
    method UpdateRoot(ghost whole: Tree)
      requires Focus(Top, whole) && (if root == null then whole == Leaf else root in Nodes(whole))
      modifies this`root
      ensures root == Root(whole) && Focus(Top, whole)
    {
      if root != null {
        ghost var c, s := FocusOn(Top, whole, root);
        var r := root;
        FocusFields(c, s);
        while r.parent != null
          invariant Focus(c, s) && s.Bin? && r == s.node && r.parent == ParentOf(c) && Plug(c, s) == whole
          decreases c
        {
          Up(c, s);
          c, s := c.up, Upper(c, s);
          r := r.parent;
          FocusFields(c, s);
        }
        root := r;
      }
    }

    method UpdateMostLeft(ghost whole: Tree)
      requires Focus(Top, whole) && root == Root(whole)
      modifies this`leftmost
      ensures leftmost == Root(EndTree(Left, whole)) && Focus(Top, whole)
    {
      leftmost := MinNode(root, Top, whole);
    }

    method UpdateMostRight(ghost whole: Tree)
      requires Focus(Top, whole) && root == Root(whole)
      modifies this`rightmost
      ensures rightmost == Root(EndTree(Right, whole)) && Focus(Top, whole)
    {
      rightmost := MaxNode(root, Top, whole);
    }

    /** The header's links after a repair. */
    method UpdateHeader(ghost whole: Tree)
      requires Focus(Top, whole) && (if root == null then whole == Leaf else root in Nodes(whole))
      requires RedBlack(whole) && Sorted(InOrder(whole))
      modifies this
      ensures Valid() && shape == whole
    {
      shape := whole;
      hide Focus, RedBlack, Sorted, InOrder, EndTree, Nodes;
      UpdateRoot(whole);
      UpdateMostLeft(whole);
      UpdateMostRight(whole);
    }

    method Insert(data: Data)
      requires Valid()
      modifies this, Nodes(shape)
      ensures Valid() && Contents() == Inserted(old(Contents()), data)
      ensures fresh(Nodes(shape) - old(Nodes(shape)))
    {
      assert allocated(Nodes(shape));
      var newNode := new Node(data);
      assert Focus(Top, shape) && newNode !in Footprint(Top, shape);
      ghost var t, slot := shape, Slot(Top, shape, data.key);
      NewPlaceColors(t, newNode, data);
      hide Focus, RedBlack, Sorted, Reddened, Slot, InOrder, Inserted, Nodes, Rebuilt, Footprint;
      Attach(newNode);
      ghost var whole := AdjustTree(newNode, slot, Single(newNode, data));
      InsertedTree(t, newNode, data, whole);
      UpdateHeader(whole);
    }

    /** `insert_by_key` from the header. */
    method Attach(newNode: Node)
      requires Focus(Top, shape) && root == Root(shape) && newNode !in Footprint(Top, shape)
      requires newNode.color == Red && newNode.parent == null && newNode.left == null && newNode.right == null
      modifies this`root, Nodes(shape), newNode`parent
      ensures Focus(Slot(Top, shape, newNode.data.key), Single(newNode, newNode.data))
      ensures Footprint(Slot(Top, shape, newNode.data.key), Single(newNode, newNode.data)) == Nodes(shape) + {newNode}
      ensures root != null && root in Nodes(shape) + {newNode}
    {
      ghost var key := newNode.data.key;
      AddedFootprint(shape, newNode, newNode.data);
      RootIn(shape);
      if root == null {
        root := newNode;
        AloneFocus(newNode);
      } else {
        hide Focus, Footprint, Nodes, Slot;
        InsertByKey(root, newNode, Top, shape);
      }
    }
  
    // ---------- Deletion ----------

    /** `replace_node`: the only child of `node` takes its place; at the top the header follows. */
    method ReplaceNode(node: Node, child: Node?, ghost ctx: Ctx, ghost t: Tree)
      requires t.Bin? && t.node == node && Focus(ctx, t) && (t.left.Leaf? || t.right.Leaf?)
      requires child == Root(OnlyChild(t))
      modifies this`root, Footprint(ctx, t) - {node}
      ensures Focus(ctx, OnlyChild(t)) && Footprint(ctx, OnlyChild(t)) == Footprint(ctx, t) - {node}
      ensures root == if ctx == Top then child else old(root)
    {
      ghost var c := OnlyChild(t);
      FocusFields(ctx, t);
      ReplacedParts(ctx, t);
      assert Linked(c, node) && Distinct(c);
      hide Focus, Linked, LinkedCtx, Nodes, CtxNodes;
      if child != null {
        child.parent := node.parent;
      }
      if node.parent == null {
        root := child;
      } else if node == node.parent.left {
        node.parent.left := child;
      } else {
        node.parent.right := child;
      }
      assert Untouched(Nodes(c) - Roots(c) + (CtxNodes(ctx) - Lowest(ctx)));
      UntouchedPart(Nodes(c) - Roots(c) + (CtxNodes(ctx) - Lowest(ctx)), Nodes(c) - Roots(c));
      UntouchedPart(Nodes(c) - Roots(c) + (CtxNodes(ctx) - Lowest(ctx)), CtxNodes(ctx) - Lowest(ctx));
      Rehung(c, node, ParentOf(ctx));
      Grafted(ctx, t, c);
    }
  
    /** Unlinks a node with at most one child and repairs the colours. */
    method DeleteNodeWithOneChild(node: Node, ghost ctx: Ctx, ghost t: Tree) returns (ghost whole: Tree)
      requires t.Bin? && t.node == node && Focus(ctx, t) && (t.left.Leaf? || t.right.Leaf?) && Fits(ctx, t)
      requires root == Root(Plug(ctx, t))
      modifies this`root, Footprint(ctx, t)
      ensures Focus(Top, whole) && RedBlack(whole) && Rebuilt(ctx, OnlyChild(t), whole)
      ensures Nodes(whole) == Footprint(ctx, t) - {node}
      ensures if root == null then whole == Leaf else root in Nodes(whole)
    {
      FocusFields(ctx, t);
      ChildFields(ctx, t);
      OneChildColors(ctx, t);
      OldRoot(ctx, t);
      hide Focus, Fits, Footprint, Rebuilt, RedBlack, Deficient, Nodes, CtxNodes, Plug;
      var child := if node.right != null then node.right else node.left;
      var p := Parent(node);
      ReplaceNode(node, child, ctx, t);
      ghost var c := OnlyChild(t);
      if node.color == Black {
        if child != null && child.color == Red {
          Paint(child, Black, ctx, c);
          Finished(ctx, c.(color := Black));
          whole := Plug(ctx, c.(color := Black));
          PaintedPairs(ctx, c, whole);
        } else {
          whole := DeleteNodeComplex1(p, child, ctx, c);
        }
      } else {
        Finished(ctx, c);
        whole := Plug(ctx, c);
      }
      NewRoot(ctx, t, whole);
    }
  
    /** Unlinks the pair of `target`: its neighbour in key order gives up its pair and its node. */
    method DeleteTarget(target: Node, ghost ctx: Ctx, ghost s: Tree) returns (ghost whole: Tree)
      requires s.Bin? && s.node == target && Focus(ctx, s) && Fits(ctx, s) && root == Root(Plug(ctx, s))
      modifies this`root, Footprint(ctx, s)
      ensures Focus(Top, whole) && RedBlack(whole) && Nodes(whole) < Footprint(ctx, s)
      ensures InOrder(whole) == Before(ctx) + (InOrder(s.left) + InOrder(s.right)) + After(ctx)
      ensures if root == null then whole == Leaf else root in Nodes(whole)
    {
      FocusFields(ctx, s);
      RootIn(s);
      hide Focus, Fits, Footprint, Rebuilt, RedBlack, Nodes, CtxNodes, Plug, InOrder, Before, After, EndTree, EndCtx;
      ghost var side := Left;
      Down(ctx, s, Right);
      RootIn(s.right);
      var toDelete := MinNode(target.right, Below(ctx, s, Right), s.right);
      Up(Below(ctx, s, Right), s.right);
      EndRoot(Left, s.right);
      if toDelete == null {
        side := Right;
        Down(ctx, s, Left);
        FocusFields(ctx, s);
        RootIn(s.left);
        toDelete := MaxNode(target.left, Below(ctx, s, Left), s.left);
        Up(Below(ctx, s, Left), s.left);
        EndRoot(Right, s.left);
      }
      if toDelete != null {
        whole := DeleteNeighbour(target, toDelete, side, ctx, s);
      } else {
        whole := DeleteNodeWithOneChild(target, ctx, s);
        LeafOrder(ctx, s, whole);
      }
    }

    /** Exchanges the pairs of `target` and its neighbour and unlinks the neighbour. */
    method DeleteNeighbour(target: Node, toDelete: Node, ghost side: Side, ghost ctx: Ctx, ghost s: Tree)
      returns (ghost whole: Tree)
      requires s.Bin? && s.node == target && Focus(ctx, s) && Fits(ctx, s) && root == Root(Plug(ctx, s))
      requires Far(side, s).Bin? && toDelete == Root(Neighbour(side, s))
      modifies this`root, Footprint(ctx, s)
      ensures Focus(Top, whole) && RedBlack(whole) && Nodes(whole) < Footprint(ctx, s)
      ensures InOrder(whole) == Before(ctx) + (InOrder(s.left) + InOrder(s.right)) + After(ctx)
      ensures if root == null then whole == Leaf else root in Nodes(whole)
    {
      NeighbourFields(side, ctx, s);
      NeighbourFits(side, ctx, s);
      NeighbourOrder(side, ctx, s);
      hide Focus, Fits, Footprint, Rebuilt, RedBlack, Nodes, CtxNodes, Plug, InOrder, Before, After, EndTree, EndCtx;
      ghost var s', e, c := Swapped(side, s), Neighbour(side, s), NeighbourCtx(side, ctx, Swapped(side, s));
      var data := target.data;
      Rewrite(target, toDelete.data, ctx, s);
      Down(ctx, s', Opposite(side));
      EndFocus(side, Below(ctx, s', Opposite(side)), Far(side, s));
      Rewrite(toDelete, data, c, e);
      NeighbourRoot(side, ctx, s);
      whole := DeleteNodeWithOneChild(toDelete, c, e.(data := s.data));
      NeighbourGone(side, ctx, s, whole);
    }
  
    /** Deletes one pair with the key, if there is one. */
    method Delete(key: int)
      requires Valid()
      modifies this, Nodes(shape)
      ensures Valid() && Nodes(shape) <= old(Nodes(shape))
      ensures HasKey(old(Contents()), key) ==> RemovedOne(old(Contents()), key, Contents())
      ensures !HasKey(old(Contents()), key) ==> shape == old(shape)
    {
      ghost var t := shape;
      hide Focus, Fits, RedBlack, Sorted, Found, FoundCtx, InOrder, Before, After, Nodes, CtxNodes, Plug, HasKey,
           RemovedOne;
      hide Linked, Footprint, EndTree;
      DeletionStart(t, key);
      var target := Search(root, key, null, t);
      if target == null {
        return;
      }
      ghost var whole := DeleteTarget(target, FoundCtx(Top, t, key), Found(t, key));
      DeletionEnd(t, key, whole);
      UpdateHeader(whole);
    }

    /** The value of some pair with the key. */
    method Get(key: int) returns (found: bool, value: int)
      requires Valid()
      ensures found <==> HasKey(Contents(), key)
      ensures found ==> Data(key, value) in Contents()
    {
      FoundIffPresent(shape, key);
      FoundFocus(Top, shape, key);
      FocusFields(FoundCtx(Top, shape, key), Found(shape, key));
      RootIn(Found(shape, key));
      var result := Search(root, key, null, shape);
      found, value := result != null, 0;
      if found {
        value := result.data.value;
      }
    }

    /** The header's left link: the first pair. The source follows it without a check, so the tree must have one. */
    method Min() returns (data: Data)
      requires Valid() && Contents() != []
      ensures data == Contents()[0] && forall x <- Contents() :: data.key <= x.key
    {
      EndPairs(Left, shape);
      data := leftmost.data;
    }

    method Max() returns (data: Data)
      requires Valid() && Contents() != []
      ensures data == Contents()[|Contents()| - 1] && forall x <- Contents() :: x.key <= data.key
    {
      EndPairs(Right, shape);
      data := rightmost.data;
    }
  }

  /** One pair with the key is gone, all other pairs keep their order. */
  ghost predicate RemovedOne(s: seq<Data>, key: int, s': seq<Data>) {
    exists i :: 0 <= i < |s| && s[i].key == key && s' == s[..i] + s[i + 1..]
  }

  lemma RemovedSorted(a: seq<Data>, d: Data, b: seq<Data>)
    requires Sorted(a + [d] + b)
    ensures Sorted(a + b) && RemovedOne(a + [d] + b, d.key, a + b)
  {
    var s := a + [d] + b;
    assert s[|a|] == d && s[..|a|] == a && s[|a| + 1..] == b;
    forall i, j | 0 <= i < j < |a + b| ensures (a + b)[i].key <= (a + b)[j].key {
      var i' := if i < |a| then i else i + 1;
      var j' := if j < |a| then j else j + 1;
      assert s[i'].key <= s[j'].key;
    }
  }

  lemma DeletionStart(t: Tree, key: int)
    requires WellFormed(t)
    ensures Linked(t, null) && (Root(Found(t, key)) != null <==> HasKey(InOrder(t), key))
    ensures HasKey(InOrder(t), key) ==>
      var c, s := FoundCtx(Top, t, key), Found(t, key);
      && s.Bin? && s.node == Root(s) && Focus(c, s) && Fits(c, s) && Footprint(c, s) == Nodes(t) && Plug(c, s) == t
  {
    FoundIffPresent(t, key);
    FoundFocus(Top, t, key);
    RootIn(Found(t, key));
    FoundFits(t, key);
  }

  lemma Grouped(a: seq<Data>, l: seq<Data>, r: seq<Data>, z: seq<Data>)
    ensures a + (l + r) + z == (a + l) + (r + z)
  {
  }

  lemma DeletionEnd(t: Tree, key: int, whole: Tree)
    requires Sorted(InOrder(t)) && HasKey(InOrder(t), key) && Found(t, key).Bin?
    requires var c, s := FoundCtx(Top, t, key), Found(t, key);
      InOrder(whole) == Before(c) + (InOrder(s.left) + InOrder(s.right)) + After(c)
    ensures Sorted(InOrder(whole)) && RemovedOne(InOrder(t), key, InOrder(whole))
  {
    FoundIffPresent(t, key);
    FoundParts(t, key);
    var c, s := FoundCtx(Top, t, key), Found(t, key);
    hide Sorted, RemovedOne, Found, FoundCtx, InOrder, Before, After;
    Grouped(Before(c), InOrder(s.left), InOrder(s.right), After(c));
    RemovedSorted(Before(c) + InOrder(s.left), s.data, InOrder(s.right) + After(c));
  }

  lemma FoundFits(t: Tree, key: int)
    requires RedBlack(t)
    ensures Fits(FoundCtx(Top, t, key), Found(t, key))
  {
    FoundPlug(Top, t, key);
    UnplugGood(FoundCtx(Top, t, key), Found(t, key));
  }

  lemma {:induction false} FoundPlug(ctx: Ctx, t: Tree, key: int)
    ensures Plug(FoundCtx(ctx, t, key), Found(t, key)) == Plug(ctx, t)
    decreases t
  {
    if t.Bin? && t.data.key != key {
      var side := if t.data.key > key then Left else Right;
      FoundPlug(Below(ctx, t, side), Near(side, t), key);
    }
  }

  lemma FoundParts(t: Tree, key: int)
    requires Found(t, key).Bin?
    ensures var c, s := FoundCtx(Top, t, key), Found(t, key);
      InOrder(t) == (Before(c) + InOrder(s.left)) + [s.data] + (InOrder(s.right) + After(c))
      && Plug(c, s) == t
  {
    var c, s := FoundCtx(Top, t, key), Found(t, key);
    FoundPlug(Top, t, key);
    PlugInOrder(c, s);
    assert InOrder(s) == InOrder(s.left) + [s.data] + InOrder(s.right);
  }

  lemma EndPairs(side: Side, t: Tree)
    requires Focus(Top, t) && Sorted(InOrder(t)) && InOrder(t) != []
    ensures EndTree(side, t).Bin? && EndTree(side, t).node.data == EndTree(side, t).data
    ensures side == Left ==>
      EndTree(side, t).data == InOrder(t)[0] && forall x <- InOrder(t) :: InOrder(t)[0].key <= x.key
    ensures side == Right ==>
      && EndTree(side, t).data == InOrder(t)[|InOrder(t)| - 1]
      && forall x <- InOrder(t) :: x.key <= InOrder(t)[|InOrder(t)| - 1].key
  {
    EndFocus(side, Top, t);
    FocusFields(EndCtx(side, Top, t), EndTree(side, t));
    EndOrder(side, Top, t);
    var e := EndTree(side, t);
    assert InOrder(e) == InOrder(e.left) + [e.data] + InOrder(e.right);
    if side == Left {
      assert InOrder(t) == InOrder(e) + After(EndCtx(side, Top, t));
    } else {
      assert InOrder(t) == Before(EndCtx(side, Top, t)) + InOrder(e);
    }
  }

  lemma EndRoot(side: Side, t: Tree)
    ensures Root(EndTree(side, t)) == null <==> t.Leaf?
  {
    if t.Bin? { EndNear(side, t); }
    RootIn(EndTree(side, t));
  }

  lemma LeafOrder(ctx: Ctx, s: Tree, whole: Tree)
    requires s.Bin? && s.left.Leaf? && s.right.Leaf? && Rebuilt(ctx, Leaf, whole)
    ensures InOrder(whole) == Before(ctx) + (InOrder(s.left) + InOrder(s.right)) + After(ctx)
  {
    assert InOrder(Leaf) == [];
  }

  lemma NeighbourFields(side: Side, ctx: Ctx, s: Tree)
    requires s.Bin? && Far(side, s).Bin? && Focus(ctx, s)
    ensures Neighbour(side, s).Bin? && Neighbour(side, s).node != s.node && s.node.data == s.data
    ensures s.node in Footprint(ctx, s) && Neighbour(side, s).node in Footprint(ctx, s)
    ensures Neighbour(side, s).node.data == Neighbour(side, s).data
  {
    FocusFields(ctx, s);
    FocusApart(ctx, s);
    var c := Below(ctx, s, Opposite(side));
    Down(ctx, s, Opposite(side));
    EndFocus(side, c, Far(side, s));
    FocusFields(EndCtx(side, c, Far(side, s)), Neighbour(side, s));
    EndInside(side, Far(side, s));
  }

  lemma {:induction false} EndInside(side: Side, t: Tree)
    requires t.Bin?
    ensures EndTree(side, t).Bin? && EndTree(side, t).node in Nodes(t)
  {
    if Near(side, t).Bin? { EndInside(side, Near(side, t)); }
  }

  lemma NeighbourRoot(side: Side, ctx: Ctx, s: Tree)
    requires s.Bin? && Far(side, s).Bin? && Neighbour(side, s).Bin?
    ensures Root(Plug(NeighbourCtx(side, ctx, Swapped(side, s)), Neighbour(side, s).(data := s.data)))
         == Root(Plug(ctx, s))
  {
    var below := Below(ctx, Swapped(side, s), Opposite(side));
    PlugRoot(NeighbourCtx(side, ctx, Swapped(side, s)), Neighbour(side, s).(data := s.data));
    PlugRoot(ctx, s);
    EndTop(side, below, Far(side, s));
  }

  lemma NeighbourGone(side: Side, ctx: Ctx, s: Tree, whole: Tree)
    requires s.Bin? && Far(side, s).Bin? && Neighbour(side, s).Bin? && Near(side, Neighbour(side, s)).Leaf?
    requires Rebuilt(NeighbourCtx(side, ctx, Swapped(side, s)), OnlyChild(Neighbour(side, s)), whole)
    ensures InOrder(whole) == Before(ctx) + (InOrder(s.left) + InOrder(s.right)) + After(ctx)
  {
    assert OnlyChild(Neighbour(side, s)) == Far(side, Neighbour(side, s));
    NeighbourOrder(side, ctx, s);
  }

  lemma ChildFields(ctx: Ctx, t: Tree)
    requires t.Bin? && Focus(ctx, t)
    ensures t.node in Nodes(t) && Footprint(ctx, t) >= Nodes(t)
    ensures Root(OnlyChild(t)) == if t.node.right != null then t.node.right else t.node.left
    ensures OnlyChild(t).Bin? ==> OnlyChild(t).node != t.node && OnlyChild(t).node.color == OnlyChild(t).color
    ensures OnlyChild(t).Bin? <==> Root(OnlyChild(t)) != null
  {
    BinFields(ctx, t);
    RootIn(t.left);
    RootIn(t.right);
  }

  /** The header's root link stays in the tree while another node goes. */
  lemma OldRoot(ctx: Ctx, t: Tree)
    requires t.Bin? && Focus(ctx, t)
    ensures ctx == Top ==> Plug(ctx, t) == t
    ensures ctx.Under? ==> Root(Plug(ctx, t)) != null && Root(Plug(ctx, t)) in Footprint(ctx, t) - {t.node}
  {
    if ctx.Under? { RootAbove(ctx, t); }
  }

  lemma PaintedPairs(ctx: Ctx, t: Tree, whole: Tree)
    requires t.Bin? && Rebuilt(ctx, t.(color := Black), whole)
    ensures Rebuilt(ctx, t, whole)
  {
    assert InOrder(t.(color := Black)) == InOrder(t) && Nodes(t.(color := Black)) == Nodes(t);
  }

  lemma NewRoot(ctx: Ctx, t: Tree, whole: Tree)
    requires t.Bin? && Rebuilt(ctx, OnlyChild(t), whole)
    ensures Nodes(whole) == Footprint(ctx, OnlyChild(t))
    ensures ctx == Top ==>
      if OnlyChild(t).Leaf? then whole == Leaf else Root(OnlyChild(t)) in Nodes(whole)
  {
    RootIn(whole);
    RootIn(OnlyChild(t));
  }

  /** The nodes around a node that is about to be replaced by its only child. */
  lemma ReplacedParts(ctx: Ctx, t: Tree)
    requires t.Bin? && Focus(ctx, t) && (t.left.Leaf? || t.right.Leaf?)
    ensures var c := OnlyChild(t);
      && Nodes(t) == Nodes(c) + {t.node} && t.node !in Nodes(c) && t.node !in CtxNodes(ctx) && Nodes(c) !! CtxNodes(ctx)
      && Roots(c) <= Nodes(c) && Lowest(ctx) <= CtxNodes(ctx)
    ensures ctx.Under? ==>
      (ctx.node.left == t.node <==> ctx.side == Left) && (ctx.side == Right ==> ctx.node.right == t.node)
  {
    FocusFields(ctx, t);
    RootIn(t.left);
    RootIn(t.right);
    if ctx.Under? { RootIn(ctx.other); }
  }
}
