/** The walks down and up a red-black tree: to a key, to a free place, to the ends, and back to the root. */
module RedBlackPaths {
  import opened RedBlackShapes
  import opened RedBlackRotations

  ghost predicate Sorted(s: seq<Data>) {
    forall i, j :: 0 <= i < j < |s| ==> s[i].key <= s[j].key
  }

  ghost predicate HasKey(s: seq<Data>, key: int) {
    exists i :: 0 <= i < |s| && s[i].key == key
  }

  // ---------- To a free place: after every equal key ----------

  /** The pairs with a new one behind every pair whose key is not larger. */
  function Inserted(s: seq<Data>, d: Data): seq<Data> {
    if s == [] then [d] else if s[0].key > d.key then [d] + s else [s[0]] + Inserted(s[1..], d)
  }

  lemma SortedFront(s: seq<Data>)
    requires Sorted(s) && s != []
    ensures Sorted(s[1..]) && forall x <- s :: s[0].key <= x.key
  {
  }

  lemma FrontSorted(d: Data, s: seq<Data>)
    requires Sorted(s) && forall x <- s :: d.key <= x.key
    ensures Sorted([d] + s)
  {
  }

  lemma {:induction false} InsertedSorted(s: seq<Data>, d: Data)
    requires Sorted(s)
    ensures Sorted(Inserted(s, d)) && multiset(Inserted(s, d)) == multiset(s) + multiset{d}
    ensures forall x <- Inserted(s, d) :: x == d || x in s
  {
    if s != [] && s[0].key <= d.key {
      assert s == [s[0]] + s[1..];
      SortedFront(s);
      InsertedSorted(s[1..], d);
      FrontSorted(s[0], Inserted(s[1..], d));
    } else {
      if s != [] { SortedFront(s); }
      FrontSorted(d, s);
    }
  }

  ghost predicate AllAtMost(s: seq<Data>, key: int) {
    forall x <- s :: x.key <= key
  }

  ghost predicate AllAbove(s: seq<Data>, key: int) {
    forall x <- s :: x.key > key
  }

  /** A split with small keys before and larger ones behind is where the new pair goes. */
  lemma {:induction false} InsertedBetween(a: seq<Data>, d: Data, b: seq<Data>)
    requires AllAtMost(a, d.key) && AllAbove(b, d.key)
    ensures Inserted(a + b, d) == a + [d] + b
  {
    if a == [] {
      assert a + b == b;
      if b != [] { assert b[0] in b; }
    } else {
      assert a[0] in a;
      assert (a + b)[1..] == a[1..] + b;
      InsertedBetween(a[1..], d, b);
    }
  }

  /** Where the descent of `insert_by_key` ends: smaller keys to the left, equal and larger ones to the right. */
  ghost function Slot(ctx: Ctx, t: Tree, key: int): Ctx
    decreases t
  {
    match t
    case Leaf => ctx
    case Bin(_, l, _, d, r) =>
      if d.key > key then Slot(Below(ctx, t, Left), l, key) else Slot(Below(ctx, t, Right), r, key)
  }

  lemma {:induction false} SlotFocus(ctx: Ctx, t: Tree, key: int)
    requires Focus(ctx, t)
    ensures Focus(Slot(ctx, t, key), Leaf) && Footprint(Slot(ctx, t, key), Leaf) == Footprint(ctx, t)
    decreases t
  {
    hide Focus, Footprint;
    match t
    case Leaf =>
    case Bin(_, l, _, d, r) =>
      var side := if d.key > key then Left else Right;
      Down(ctx, t, side);
      SlotFocus(Below(ctx, t, side), Near(side, t), key);
  }

  lemma {:induction false} SlotGood(ctx: Ctx, t: Tree, key: int)
    requires Good(t) && GoodCtx(ctx, Height(t)) && (RootBlack(t) || (ctx.Under? && ctx.color == Black))
    ensures GoodCtx(Slot(ctx, t, key), 0)
    decreases t
  {
    match t
    case Leaf =>
    case Bin(_, l, _, d, r) =>
      var side := if d.key > key then Left else Right;
      SlotGood(Below(ctx, t, side), Near(side, t), key);
  }

  lemma SortedParts(a: seq<Data>, d: Data, b: seq<Data>)
    requires Sorted(a + [d] + b)
    ensures Sorted(a) && Sorted(b) && AllAtMost(a, d.key) && forall x <- b :: d.key <= x.key
  {
    var s := a + [d] + b;
    assert s[|a|] == d;
    forall i, j | 0 <= i < j < |a| ensures a[i].key <= a[j].key { assert s[i].key <= s[j].key; }
    forall i, j | 0 <= i < j < |b| ensures b[i].key <= b[j].key { assert s[|a| + 1 + i].key <= s[|a| + 1 + j].key; }
    forall i | 0 <= i < |a| ensures a[i].key <= d.key { assert s[i].key <= s[|a|].key; }
    forall i | 0 <= i < |b| ensures d.key <= b[i].key { assert s[|a|].key <= s[|a| + 1 + i].key; }
  }

  /** The place has the not larger keys before it and the larger ones behind. */
  lemma {:induction false} SlotOrder(ctx: Ctx, t: Tree, key: int)
    requires Sorted(InOrder(t)) && AllAtMost(Before(ctx), key) && AllAbove(After(ctx), key)
    ensures AllAtMost(Before(Slot(ctx, t, key)), key) && AllAbove(After(Slot(ctx, t, key)), key)
    ensures Before(Slot(ctx, t, key)) + After(Slot(ctx, t, key)) == Before(ctx) + InOrder(t) + After(ctx)
    decreases t
  {
    match t
    case Leaf =>
    case Bin(_, l, _, d, r) =>
      SortedParts(InOrder(l), d, InOrder(r));
      if d.key > key {
        SlotOrder(Below(ctx, t, Left), l, key);
        Regroup(Before(ctx), InOrder(l), [d], InOrder(r), After(ctx));
      } else {
        SlotOrder(Below(ctx, t, Right), r, key);
        Regroup(Before(ctx), InOrder(l), [d], InOrder(r), After(ctx));
      }
  }

  // ---------- To a key ----------

  /** The subtree at which `search` stops. */
  ghost function Found(t: Tree, key: int): Tree {
    match t
    case Leaf => Leaf
    case Bin(_, l, _, d, r) => if d.key == key then t else if d.key > key then Found(l, key) else Found(r, key)
  }

  ghost function FoundCtx(ctx: Ctx, t: Tree, key: int): Ctx
    decreases t
  {
    match t
    case Leaf => ctx
    case Bin(_, l, _, d, r) =>
      if d.key == key then ctx
      else if d.key > key then FoundCtx(Below(ctx, t, Left), l, key)
      else FoundCtx(Below(ctx, t, Right), r, key)
  }

  lemma {:induction false} FoundFocus(ctx: Ctx, t: Tree, key: int)
    requires Focus(ctx, t)
    ensures Focus(FoundCtx(ctx, t, key), Found(t, key))
    ensures Footprint(FoundCtx(ctx, t, key), Found(t, key)) == Footprint(ctx, t)
    ensures Plug(FoundCtx(ctx, t, key), Found(t, key)) == Plug(ctx, t)
    decreases t
  {
    hide Focus, Footprint;
    match t
    case Leaf =>
    case Bin(_, l, _, d, r) =>
      if d.key != key {
        var side := if d.key > key then Left else Right;
        Down(ctx, t, side);
        FoundFocus(Below(ctx, t, side), Near(side, t), key);
      }
  }

  /** `search` finds a pair with the key exactly when there is one. */
  lemma {:induction false} FoundIffPresent(t: Tree, key: int)
    requires Sorted(InOrder(t))
    ensures Found(t, key).Bin? <==> HasKey(InOrder(t), key)
    ensures Found(t, key).Bin? ==> Found(t, key).data.key == key && Found(t, key).data in InOrder(t)
  {
    match t
    case Leaf =>
    case Bin(_, l, _, d, r) =>
      SortedParts(InOrder(l), d, InOrder(r));
      HasKeyParts(InOrder(l), d, InOrder(r), key);
      FoundIffPresent(l, key);
      FoundIffPresent(r, key);
      if HasKey(InOrder(l), key) { assert d.key >= key; }
      if HasKey(InOrder(r), key) { assert d.key <= key; }
  }

  lemma HasKeyParts(a: seq<Data>, d: Data, b: seq<Data>, key: int)
    ensures HasKey(a + [d] + b, key) <==> HasKey(a, key) || d.key == key || HasKey(b, key)
  {
    var s := a + [d] + b;
    assert s[|a|] == d;
    assert forall i | 0 <= i < |a| :: s[i] == a[i];
    assert forall i | 0 <= i < |b| :: s[|a| + 1 + i] == b[i];
    if HasKey(s, key) {
      var i :| 0 <= i < |s| && s[i].key == key;
      if i < |a| { assert a[i].key == key; } else if i > |a| { assert b[i - |a| - 1].key == key; }
    }
  }

  // ---------- To the ends ----------

  /** The lowest subtree on the `side` edge. */
  ghost function EndTree(side: Side, t: Tree): Tree {
    if t.Bin? && Near(side, t).Bin? then
      (match side case Left => EndTree(side, t.left) case Right => EndTree(side, t.right))
    else t
  }

  ghost function EndCtx(side: Side, ctx: Ctx, t: Tree): Ctx
    decreases t
  {
    if t.Bin? && Near(side, t).Bin? then
      (match side
       case Left => EndCtx(side, Below(ctx, t, side), t.left)
       case Right => EndCtx(side, Below(ctx, t, side), t.right))
    else ctx
  }

  lemma {:induction false} EndFocus(side: Side, ctx: Ctx, t: Tree)
    requires Focus(ctx, t) && t.Bin?
    ensures EndTree(side, t).Bin? && Near(side, EndTree(side, t)).Leaf?
    ensures Focus(EndCtx(side, ctx, t), EndTree(side, t))
    ensures Footprint(EndCtx(side, ctx, t), EndTree(side, t)) == Footprint(ctx, t)
    decreases t
  {
    hide Focus, Footprint;
    if Near(side, t).Bin? {
      Down(ctx, t, side);
      EndFocus(side, Below(ctx, t, side), Near(side, t));
    }
  }

  lemma {:induction false} EndGood(side: Side, ctx: Ctx, t: Tree)
    requires t.Bin? && Good(t) && GoodCtx(ctx, Height(t)) && (RootBlack(t) || (ctx.Under? && ctx.color == Black))
    ensures Good(EndTree(side, t)) && GoodCtx(EndCtx(side, ctx, t), Height(EndTree(side, t)))
    ensures RootBlack(EndTree(side, t)) || (EndCtx(side, ctx, t).Under? && EndCtx(side, ctx, t).color == Black)
    decreases t
  {
    if Near(side, t).Bin? {
      EndGood(side, Below(ctx, t, side), Near(side, t));
    }
  }

  lemma Assoc(a: seq<Data>, b: seq<Data>, c: seq<Data>, d: seq<Data>)
    ensures a + (b + c + d) == (a + b + c) + d && (a + b + c) + d == a + (b + c + d)
  {
  }

  /** The left end is where the in-order sequence begins, the right end where it stops. */
  lemma {:induction false} EndOrder(side: Side, ctx: Ctx, t: Tree)
    requires t.Bin?
    ensures EndTree(side, t).Bin?
    ensures side == Left ==>
      && Before(EndCtx(side, ctx, t)) == Before(ctx)
      && InOrder(EndTree(side, t)) + After(EndCtx(side, ctx, t)) == InOrder(t) + After(ctx)
    ensures side == Right ==>
      && After(EndCtx(side, ctx, t)) == After(ctx)
      && Before(EndCtx(side, ctx, t)) + InOrder(EndTree(side, t)) == Before(ctx) + InOrder(t)
    decreases t
  {
    if Near(side, t).Bin? {
      EndOrder(side, Below(ctx, t, side), Near(side, t));
      Assoc(Before(ctx), InOrder(t.left), [t.data], InOrder(t.right));
      Assoc(InOrder(t.left), [t.data], InOrder(t.right), After(ctx));
    }
  }

  // ---------- From a node up to the root ----------

  /** Every node of a tree can be focused. */
  lemma {:induction false} FocusOn(ctx: Ctx, t: Tree, n: Node) returns (c: Ctx, s: Tree)
    requires Focus(ctx, t) && n in Nodes(t)
    ensures Focus(c, s) && s.Bin? && s.node == n && Plug(c, s) == Plug(ctx, t)
    decreases t
  {
    if n == t.node {
      return ctx, t;
    } else if n in Nodes(t.left) {
      Down(ctx, t, Left);
      c, s := FocusOn(Below(ctx, t, Left), t.left, n);
    } else {
      Down(ctx, t, Right);
      c, s := FocusOn(Below(ctx, t, Right), t.right, n);
    }
  }

  lemma {:induction false} RootAbove(ctx: Ctx, t: Tree)
    requires ctx.Under?
    ensures Plug(ctx, t).Bin? && Root(Plug(ctx, t)) in CtxNodes(ctx)
    decreases ctx
  {
    if ctx.up.Under? { RootAbove(ctx.up, Upper(ctx, t)); }
  }

  /** The root of the tree around a node `n`. */
  ghost function TopNode(ctx: Ctx, n: Node?): Node? {
    match ctx
    case Top => n
    case Under(up, _, _, m, _, _) => TopNode(up, m)
  }

  lemma {:induction false} PlugRoot(ctx: Ctx, t: Tree)
    ensures Root(Plug(ctx, t)) == TopNode(ctx, Root(t))
    decreases ctx
  {
    if ctx.Under? { PlugRoot(ctx.up, Upper(ctx, t)); }
  }

  lemma {:induction false} EndTop(side: Side, ctx: Ctx, t: Tree)
    requires t.Bin?
    ensures TopNode(EndCtx(side, ctx, t), Root(EndTree(side, t))) == TopNode(ctx, Root(t))
    decreases t
  {
    if Near(side, t).Bin? { EndTop(side, Below(ctx, t, side), Near(side, t)); }
  }
}
