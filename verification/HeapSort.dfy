/** Heap sort in place, and the `k` smallest elements by a heap: `adjust_heap`, `init_heap`, `heap_sort`, `small_k`. */
module HeapSort {
  // ---------- Heaps ----------

  /** The element at `c` is not larger than the one above it. */
  predicate Under(a: seq<int>, c: int)
    requires 0 < c < |a|
  {
    a[c] <= a[(c - 1) / 2]
  }

  /** Below `len`, every element whose parent is at `lo` or behind is not larger than that parent. */
  ghost predicate HeapFrom(a: seq<int>, len: int, lo: int) {
    0 <= len <= |a| && forall c :: 0 < c < len && (c - 1) / 2 >= lo ==> Under(a, c)
  }

  /** The same but for the children of `hole`; what is above the hole is not smaller than what is below it. */
  ghost predicate HeapBut(a: seq<int>, len: int, lo: int, hole: int) {
    && 0 <= len <= |a| && 0 <= lo <= hole
    && (forall c :: 0 < c < len && (c - 1) / 2 >= lo && (c - 1) / 2 != hole ==> Under(a, c))
    && (forall c :: 0 < c < len && (c - 1) / 2 == hole && hole > 0 && (hole - 1) / 2 >= lo ==>
          a[c] <= a[(hole - 1) / 2])
  }

  /** The root of a heap is its largest element. */
  lemma {:induction false} RootIsMax(a: seq<int>, len: int, c: int)
    requires HeapFrom(a, len, 0) && 0 <= c < len
    ensures a[c] <= a[0]
    decreases c
  {
    if c > 0 {
      assert Under(a, c);
      RootIsMax(a, len, (c - 1) / 2);
    }
  }

  // ---------- Permutations ----------

  ghost predicate SameValues(a: seq<int>, b: seq<int>) {
    multiset(a) == multiset(b)
  }

  ghost function Swapped(a: seq<int>, i: int, j: int): seq<int>
    requires 0 <= i < |a| && 0 <= j < |a|
  {
    a[i := a[j]][j := a[i]]
  }

  lemma SwapSameValues(a: seq<int>, i: int, j: int)
    requires 0 <= i < |a| && 0 <= j < |a|
    ensures SameValues(Swapped(a, i, j), a)
  {
  }

  /** One step of the loop of `adjust_heap`: the hole moves to its larger child. */
  lemma HoleMoves(a: seq<int>, len: int, lo: int, hole: int, next: int)
    requires HeapBut(a, len, lo, hole) && 0 < next < len && (next - 1) / 2 == hole && a[hole] < a[next]
    requires forall c :: 0 < c < len && (c - 1) / 2 == hole ==> a[c] <= a[next]
    ensures HeapBut(Swapped(a, hole, next), len, lo, next)
  {
    var b := Swapped(a, hole, next);
    forall c | 0 < c < len && (c - 1) / 2 >= lo && (c - 1) / 2 != next ensures Under(b, c) {
      if (c - 1) / 2 != hole { assert Under(a, c); }
    }
    forall c | 0 < c < len && (c - 1) / 2 == next ensures b[c] <= b[(next - 1) / 2] {
      assert Under(a, c);
    }
  }

  lemma HoleFits(a: seq<int>, len: int, lo: int, hole: int)
    requires HeapBut(a, len, lo, hole)
    requires forall c :: 0 < c < len && (c - 1) / 2 == hole ==> a[c] <= a[hole]
    ensures HeapFrom(a, len, lo)
  {
  }

  lemma HoleStarts(a: seq<int>, len: int, lo: int)
    requires HeapFrom(a, len, lo + 1) && 0 <= lo
    ensures HeapBut(a, len, lo, lo)
  {
  }

  lemma Children(c: int, j: int)
    requires 0 <= j && 0 < c && (c - 1) / 2 == j
    ensures c == 2 * j + 1 || c == 2 * j + 2
  {
  }

  /** The child that the loop looks at is the larger one. */
  lemma LargerChild(a: seq<int>, len: int, j: int, next: int)
    requires 0 <= j && len <= |a|
    requires next == if 2 * j + 2 < len && a[2 * j + 1] < a[2 * j + 2] then 2 * j + 2 else 2 * j + 1
    ensures (next - 1) / 2 == j
    ensures next < len ==> forall c :: 0 < c < len && (c - 1) / 2 == j ==> a[c] <= a[next]
    ensures next >= len && j < |a| ==> forall c :: 0 < c < len && (c - 1) / 2 == j ==> a[c] <= a[j]
  {
    forall c | 0 < c < len && (c - 1) / 2 == j ensures next < len && a[c] <= a[next] {
      Children(c, j);
    }
  }

  /** Two sequences agree before `lo` and from `len` on. */
  ghost predicate SameOutside(a: seq<int>, b: seq<int>, lo: int, len: int) {
    |a| == |b| && forall c :: 0 <= c < |a| && (c < lo || c >= len) ==> a[c] == b[c]
  }

  lemma SwapInside(a: seq<int>, b: seq<int>, lo: int, len: int, i: int, j: int)
    requires SameValues(a, b) && SameOutside(a, b, lo, len) && 0 <= lo <= i < len <= |a| && lo <= j < len
    ensures SameValues(Swapped(a, i, j), b) && SameOutside(Swapped(a, i, j), b, lo, len)
  {
    SwapSameValues(a, i, j);
  }

  /** Sifts the element at `i` down in the first `len` elements. */
  method AdjustHeap(num: array?<int>, len: int, i: int) returns (ok: bool)
    requires num != null ==> len <= num.Length && 0 <= i && (len > 0 ==> HeapFrom(num[..], len, i + 1))
    modifies num
    ensures ok <==> num != null && len > 0
    ensures ok ==> HeapFrom(num[..], len, i) && SameValues(num[..], old(num[..]))
    ensures num != null ==> SameOutside(num[..], old(num[..]), i, if ok then len else 0)
  {
    if num == null || len <= 0 {
      return false;
    } else if len <= 1 {
      return true;
    }
    var j := i;
    HoleStarts(num[..], len, i);
    hide HeapFrom, HeapBut, SameValues, SameOutside;
    ghost var start := num[..];
    assert SameValues(start, start) && SameOutside(start, start, i, len) by { Same(start, i, len); }
    while j < len
      invariant i <= j && HeapBut(num[..], len, i, j)
      invariant SameValues(num[..], start) && SameOutside(num[..], start, i, len)
      decreases len - j
    {
      var next;
      if 2 * j + 2 < len && num[2 * j + 1] < num[2 * j + 2] {
        next := 2 * j + 2;
      } else {
        next := 2 * j + 1;
      }
      ghost var a := num[..];
      LargerChild(a, len, j, next);
      if next < len && num[j] < num[next] {
        HoleMoves(a, len, i, j, next);
        SwapInside(a, start, i, len, j, next);
        num[j], num[next] := num[next], num[j];
        assert num[..] == Swapped(a, j, next);
        j := next;
      } else {
        HoleFits(a, len, i, j);
        return true;
      }
    }
    HoleFits(num[..], len, i, j);
    return true;
  }

  lemma Same(a: seq<int>, lo: int, len: int)
    ensures SameValues(a, a) && SameOutside(a, a, lo, len)
  {
  }

  /** Makes the first `len` elements a heap. */
  method InitHeap(num: array?<int>, len: int) returns (ok: bool)
    requires num != null ==> len <= num.Length
    modifies num
    ensures ok <==> num != null && len > 0
    ensures ok ==> HeapFrom(num[..], len, 0) && SameValues(num[..], old(num[..]))
    ensures num != null ==> SameOutside(num[..], old(num[..]), 0, if ok then len else 0)
  {
    if num == null || len <= 0 {
      return false;
    } else if len <= 1 {
      return true;
    }
    ghost var start := num[..];
    var i := (len - 2) / 2;
    assert HeapFrom(start, len, i + 1);
    hide HeapFrom, SameValues, SameOutside;
    assert SameValues(start, start) && SameOutside(start, start, 0, len) by { Same(start, 0, len); }
    while i >= 0
      invariant -1 <= i < len && HeapFrom(num[..], len, i + 1)
      invariant SameValues(num[..], start) && SameOutside(num[..], start, 0, len)
    {
      ghost var a := num[..];
      var _ := AdjustHeap(num, len, i);
      StillSame(num[..], a, start, i, len);
      i := i - 1;
    }
    return true;
  }

  lemma StillSame(c: seq<int>, b: seq<int>, a: seq<int>, lo: int, len: int)
    requires SameValues(c, b) && SameValues(b, a) && SameOutside(c, b, lo, len) && SameOutside(b, a, 0, len) && 0 <= lo
    ensures SameValues(c, a) && SameOutside(c, a, 0, len)
  {
  }

  /** With the same values in all and the same places from `i` on, the fronts hold the same values. */
  lemma SameFront(b: seq<int>, a: seq<int>, i: int)
    requires SameValues(b, a) && SameOutside(b, a, 0, i) && 0 <= i <= |a|
    ensures |b| == |a| && multiset(b[..i]) == multiset(a[..i])
  {
    assert b == b[..i] + b[i..] && a == a[..i] + a[i..];
    assert b[i..] == a[i..];
    assert multiset(b) == multiset(b[..i]) + multiset(b[i..]);
    assert multiset(a) == multiset(a[..i]) + multiset(a[i..]);
    Cancel(multiset(b[..i]), multiset(a[..i]), multiset(b[i..]));
  }

  lemma Cancel(x: multiset<int>, y: multiset<int>, z: multiset<int>)
    requires x + z == y + z
    ensures x == y
  {
    assert x == (x + z) - z && y == (y + z) - z;
  }

  // ---------- Sorting ----------

  /** From `i` on sorted, and nothing before `i` is larger. */
  ghost predicate SortedFrom(a: seq<int>, len: int, i: int) {
    && 0 <= i <= len <= |a|
    && (forall x, y :: i <= x < y < len ==> a[x] <= a[y])
    && (forall x, y :: 0 <= x < i <= y < len ==> a[x] <= a[y])
  }

  /** The largest of the first `i + 1` elements goes to place `i`. */
  lemma MaxToEnd(a: seq<int>, len: int, i: int)
    requires HeapFrom(a, i + 1, 0) && SortedFrom(a, len, i + 1) && 0 < i
    ensures SortedFrom(Swapped(a, 0, i), len, i) && HeapFrom(Swapped(a, 0, i), i, 1)
  {
    var b := Swapped(a, 0, i);
    forall x | 0 <= x < i ensures b[x] <= b[i] {
      RootIsMax(a, i + 1, if x == 0 then i else x);
    }
    forall c | 0 < c < i && (c - 1) / 2 >= 1 ensures Under(b, c) {
      assert Under(a, c);
    }
  }

  /** A rearrangement of the first `i` elements keeps what is behind them sorted and not smaller. */
  lemma {:induction false} SortedStays(b: seq<int>, a: seq<int>, len: int, i: int)
    requires SortedFrom(a, len, i) && SameValues(b, a) && SameOutside(b, a, 0, i)
    ensures SortedFrom(b, len, i)
  {
    SameFront(b, a, i);
    forall x, y | 0 <= x < i <= y < len ensures b[x] <= b[y] {
      assert b[x] in multiset(b[..i]);
      assert b[x] in a[..i];
    }
  }

  method HeapSort(num: array?<int>, len: int) returns (ok: bool)
    requires num != null ==> len <= num.Length
    modifies num
    ensures ok <==> num != null && len > 0
    ensures ok ==> SortedFrom(num[..], len, 0) && SameValues(num[..], old(num[..]))
    ensures num != null ==> SameOutside(num[..], old(num[..]), 0, if ok then len else 0)
  {
    if num == null || len <= 0 {
      return false;
    } else if len <= 1 {
      return true;
    }
    ok := InitHeap(num, len);
    ghost var start := old(num[..]);
    var i := len - 1;
    assert SortedFrom(num[..], len, i + 1);
    hide HeapFrom, SameValues, SameOutside, SortedFrom;
    while i > 0
      invariant 0 <= i < len && ok && HeapFrom(num[..], i + 1, 0) && SortedFrom(num[..], len, i + 1)
      invariant SameValues(num[..], start) && SameOutside(num[..], start, 0, len)
    {
      ghost var a := num[..];
      MaxToEnd(a, len, i);
      SwapInside(a, start, 0, len, 0, i);
      num[0], num[i] := num[i], num[0];
      assert num[..] == Swapped(a, 0, i);
      ghost var b := num[..];
      var adjusted := AdjustHeap(num, i, 0);
      ok := ok && adjusted;
      SortedStays(num[..], b, len, i);
      StillSameShorter(num[..], b, start, i, len);
      i := i - 1;
    }
    AllSorted(num[..], len);
  }

  lemma StillSameShorter(c: seq<int>, b: seq<int>, a: seq<int>, i: int, len: int)
    requires SameValues(c, b) && SameValues(b, a) && SameOutside(c, b, 0, i) && SameOutside(b, a, 0, len) && i <= len
    ensures SameValues(c, a) && SameOutside(c, a, 0, len)
  {
  }

  lemma AllSorted(a: seq<int>, len: int)
    requires SortedFrom(a, len, 1)
    ensures SortedFrom(a, len, 0)
  {
  }

  // ---------- The k smallest ----------

  /** Nothing in `num[k..i]` is smaller than anything in the first `k` of `output`. */
  ghost predicate Smallest(output: seq<int>, num: seq<int>, k: int, i: int) {
    0 <= k <= i <= |num| && k <= |output| && forall x, y :: 0 <= x < k <= y < i ==> output[x] <= num[y]
  }

  /** What the first `k` of `output` and `num[k..len]` hold together. */
  ghost function Together(output: seq<int>, num: seq<int>, k: int, len: int): multiset<int>
    requires 0 <= k <= |output| && k <= len <= |num|
  {
    multiset(output[..k]) + multiset(num[k..len])
  }

  /** An element that is not smaller than the largest of the heap stays where it is. */
  lemma KeepsSmallest(output: seq<int>, num: seq<int>, k: int, i: int)
    requires Smallest(output, num, k, i) && HeapFrom(output, k, 0) && 0 < k && i < |num| && num[i] >= output[0]
    ensures Smallest(output, num, k, i + 1)
  {
    forall x | 0 <= x < k ensures output[x] <= num[i] {
      RootIsMax(output, k, x);
    }
  }

  /** A smaller one changes places with the largest of the heap. */
  lemma TradesSmallest(output: seq<int>, num: seq<int>, k: int, i: int)
    requires Smallest(output, num, k, i) && HeapFrom(output, k, 0) && 0 < k && i < |num| && num[i] < output[0]
    ensures Smallest(output[0 := num[i]], num[i := output[0]], k, i + 1) && HeapFrom(output[0 := num[i]], k, 1)
  {
    var o := output[0 := num[i]];
    forall x | 0 <= x < k ensures o[x] <= output[0] {
      RootIsMax(output, k, x);
    }
    forall c | 0 < c < k && (c - 1) / 2 >= 1 ensures Under(o, c) {
      assert Under(output, c);
    }
  }

  lemma TradeTogether(output: seq<int>, num: seq<int>, k: int, len: int, i: int)
    requires 0 < k <= |output| && k <= i < len <= |num|
    ensures Together(output[0 := num[i]], num[i := output[0]], k, len) == Together(output, num, k, len)
  {
    var o, n := output[0 := num[i]], num[i := output[0]];
    assert output[..k] == [output[0]] + output[1..k] && o[..k] == [num[i]] + output[1..k];
    assert num[k..len] == num[k..i] + [num[i]] + num[i + 1..len];
    assert n[k..len] == num[k..i] + [output[0]] + num[i + 1..len];
  }

  /** A rearrangement of the first `k` of `output` changes neither. */
  lemma Rearranged(o: seq<int>, output: seq<int>, num: seq<int>, k: int, i: int, len: int)
    requires SameValues(o, output) && SameOutside(o, output, 0, k) && Smallest(output, num, k, i) && i <= len <= |num|
    ensures Smallest(o, num, k, i) && Together(o, num, k, len) == Together(output, num, k, len)
  {
    SameFront(o, output, k);
    forall x, y | 0 <= x < k <= y < i ensures o[x] <= num[y] {
      assert o[x] in multiset(o[..k]);
      assert o[x] in output[..k];
    }
  }

  /**
   * Puts the `k` smallest of the first `len` elements into `output`, and leaves the others behind the first `k`
   * places of `num`.
   */
  method SmallK(output: array<int>, num: array?<int>, len: int, k: int) returns (ok: bool)
    requires num != null && len > 0 && len >= k ==> len <= num.Length && 1 <= k <= output.Length && output != num
    modifies output, num
    ensures ok <==> num != null && len > 0 && len >= k
    ensures ok ==> Smallest(output[..], num[..], k, len)
    ensures ok ==> Together(output[..], num[..], k, len) == multiset(old(num[..len]))
    ensures ok ==> SameOutside(num[..], old(num[..]), k, len) && SameOutside(output[..], old(output[..]), 0, k)
    ensures !ok ==> output[..] == old(output[..]) && (num != null ==> num[..] == old(num[..]))
  {
    if num == null || len <= 0 || len < k {
      return false;
    }
    ghost var n0, o0 := num[..], output[..];
    Copy(output, num, k);
    assert Together(output[..], n0, k, len) == multiset(n0[..len]) by {
      assert n0[..len] == n0[..k] + n0[k..len];
    }
    if len == k {
      return true;
    }
    ok := true;
    ghost var o1 := output[..];
    var made := InitHeap(output, k);
    ok := ok && made;
    hide HeapFrom, SameValues, SameOutside, Smallest, Together;
    assert Smallest(o1, n0, k, k) by { NothingYet(o1, n0, k); }
    Rearranged(output[..], o1, n0, k, k, len);
    OutsideTwice(output[..], o1, o0, k);
    Same(n0, k, len);
    var i := k;
    while i < len
      invariant k <= i <= len && ok && HeapFrom(output[..], k, 0) && Smallest(output[..], num[..], k, i)
      invariant Together(output[..], num[..], k, len) == multiset(n0[..len])
      invariant SameOutside(num[..], n0, k, len) && SameOutside(output[..], o0, 0, k)
    {
      ghost var o, n := output[..], num[..];
      if num[i] < output[0] {
        TradesSmallest(o, n, k, i);
        TradeTogether(o, n, k, len, i);
        TradeOutside(o, n, o0, n0, k, len, i);
        num[i], output[0] := output[0], num[i];
        assert output[..] == o[0 := n[i]] && num[..] == n[i := o[0]];
        ghost var o' := output[..];
        var adjusted := AdjustHeap(output, k, 0);
        ok := ok && adjusted;
        Rearranged(output[..], o', num[..], k, i + 1, len);
        OutsideTwice(output[..], o', o0, k);
      } else {
        KeepsSmallest(o, n, k, i);
      }
      i := i + 1;
    }
  }

  /** `memcpy` of the first `k` elements. */
  method Copy(output: array<int>, num: array<int>, k: int)
    requires 0 <= k <= output.Length && k <= num.Length && output != num
    modifies output
    ensures output[..k] == num[..k] && SameOutside(output[..], old(output[..]), 0, k)
  {
    for j := 0 to k
      invariant output[..j] == num[..j]
      invariant forall c :: j <= c < output.Length ==> output[c] == old(output[c])
    {
      output[j] := num[j];
    }
  }

  lemma NothingYet(output: seq<int>, num: seq<int>, k: int)
    requires 0 <= k <= |output| && k <= |num|
    ensures Smallest(output, num, k, k)
  {
  }

  lemma OutsideTwice(c: seq<int>, b: seq<int>, a: seq<int>, k: int)
    requires SameOutside(c, b, 0, k) && SameOutside(b, a, 0, k)
    ensures SameOutside(c, a, 0, k)
  {
  }

  lemma TradeOutside(o: seq<int>, n: seq<int>, o0: seq<int>, n0: seq<int>, k: int, len: int, i: int)
    requires SameOutside(o, o0, 0, k) && SameOutside(n, n0, k, len) && 0 < k <= i < len <= |n| && k <= |o|
    ensures SameOutside(o[0 := n[i]], o0, 0, k) && SameOutside(n[i := o[0]], n0, k, len)
  {
  }
}
