/** `GetUglyNumber_Solution`: the n-th number whose only prime factors are 2, 3 and 5. */
module UglyNumbers {
  function Pow(b: nat, e: nat): nat {
    if e == 0 then 1 else b * Pow(b, e - 1)
  }

  /** Numbers of the form `2^a * 3^b * 5^c`. */
  ghost predicate IsProduct(x: nat) {
    exists a: nat, b: nat, c: nat :: x == Product(a, b, c)
  }

  function Product(a: nat, b: nat, c: nat): nat {
    Pow(2, a) * Pow(3, b) * Pow(5, c)
  }

  /** The same, factor by factor. */
  predicate Ugly(x: nat) {
    x == 1 || (x > 1 && ((x % 2 == 0 && Ugly(x / 2)) || (x % 3 == 0 && Ugly(x / 3)) || (x % 5 == 0 && Ugly(x / 5))))
  }

  lemma {:induction false} UglyIsProduct(x: nat)
    requires Ugly(x)
    ensures IsProduct(x)
  {
    if x == 1 {
      assert Product(0, 0, 0) == 1;
    } else if x % 2 == 0 && Ugly(x / 2) {
      UglyIsProduct(x / 2);
      var a: nat, b: nat, c: nat :| x / 2 == Product(a, b, c);
      ProductTimes(a, b, c);
      assert x == Product(a + 1, b, c);
    } else if x % 3 == 0 && Ugly(x / 3) {
      UglyIsProduct(x / 3);
      var a: nat, b: nat, c: nat :| x / 3 == Product(a, b, c);
      ProductTimes(a, b, c);
      assert x == Product(a, b + 1, c);
    } else {
      UglyIsProduct(x / 5);
      var a: nat, b: nat, c: nat :| x / 5 == Product(a, b, c);
      ProductTimes(a, b, c);
      assert x == Product(a, b, c + 1);
    }
  }

  lemma ProductTimes(a: nat, b: nat, c: nat)
    ensures Product(a + 1, b, c) == 2 * Product(a, b, c)
    ensures Product(a, b + 1, c) == 3 * Product(a, b, c)
    ensures Product(a, b, c + 1) == 5 * Product(a, b, c)
  {
    var x, y, z := Pow(2, a), Pow(3, b), Pow(5, c);
    Regroup(x, y, z);
  }

  lemma Regroup(x: nat, y: nat, z: nat)
    ensures (2 * x) * y * z == 2 * (x * y * z)
    ensures x * (3 * y) * z == 3 * (x * y * z)
    ensures x * y * (5 * z) == 5 * (x * y * z)
  {
    assert (2 * x) * y == 2 * (x * y);
    assert x * (3 * y) == 3 * (x * y);
    Triple(2, x * y, z);
    Triple(3, x * y, z);
    Triple(5, x * y, z);
  }

  lemma Triple(k: nat, u: nat, z: nat)
    ensures (k * u) * z == k * (u * z) && u * (k * z) == k * (u * z)
  {
  }

  lemma {:induction false} ProductIsUgly(a: nat, b: nat, c: nat)
    ensures Product(a, b, c) > 0 && Ugly(Product(a, b, c))
    decreases a + b + c
  {
    if a > 0 {
      ProductIsUgly(a - 1, b, c);
      ProductTimes(a - 1, b, c);
      TimesUgly(Product(a - 1, b, c));
    } else if b > 0 {
      ProductIsUgly(a, b - 1, c);
      ProductTimes(a, b - 1, c);
      TimesUgly(Product(a, b - 1, c));
    } else if c > 0 {
      ProductIsUgly(a, b, c - 1);
      ProductTimes(a, b, c - 1);
      TimesUgly(Product(a, b, c - 1));
    }
  }

  lemma TimesUgly(y: nat)
    requires Ugly(y)
    ensures Ugly(2 * y) && Ugly(3 * y) && Ugly(5 * y)
  {
    assert (2 * y) / 2 == y && (3 * y) / 3 == y && (5 * y) / 5 == y;
    assert (2 * y) % 2 == 0 && (3 * y) % 3 == 0 && (5 * y) % 5 == 0;
  }

  lemma UglyIffProduct(x: nat)
    ensures Ugly(x) <==> IsProduct(x)
  {
    if Ugly(x) { UglyIsProduct(x); }
    if IsProduct(x) {
      var a: nat, b: nat, c: nat :| x == Product(a, b, c);
      ProductIsUgly(a, b, c);
    }
  }

  /** How many there are up to `x`. */
  function Rank(x: nat): nat {
    if x == 0 then 0 else Rank(x - 1) + (if Ugly(x) then 1 else 0)
  }

  lemma {:induction false} NoneBetween(lo: nat, hi: nat)
    requires lo <= hi && forall x: nat :: lo < x <= hi ==> !Ugly(x)
    ensures Rank(hi) == Rank(lo)
  {
    if lo < hi { NoneBetween(lo, hi - 1); }
  }

  ghost predicate Ordered(u: seq<nat>) {
    && |u| > 0 && u[0] == 1
    && (forall i :: 0 <= i < |u| ==> Ugly(u[i]))
    && (forall i, j :: 0 <= i < j < |u| ==> u[i] < u[j])
  }

  ghost predicate Complete(u: seq<nat>) {
    |u| > 0 && forall x: nat :: Ugly(x) && x <= u[|u| - 1] ==> x in u
  }

  /** `u` lists the first numbers of this form, in order, and all of them up to its last. */
  ghost predicate Listed(u: seq<nat>) {
    Ordered(u) && Complete(u)
  }

  /** A number of this form is known by its rank. */
  lemma {:induction false} RankGrows(x: nat, y: nat)
    requires x <= y
    ensures Rank(x) <= Rank(y) && (Ugly(y) && x < y ==> Rank(x) < Rank(y))
  {
    if x < y { RankGrows(x, y - 1); }
  }

  /** No multiple by `f` before place `p` lies beyond the list. */
  ghost predicate Behind(u: seq<nat>, f: nat, p: nat) {
    p < |u| && forall j :: 0 <= j < p ==> u[j] * f <= u[|u| - 1]
  }

  /** `p` is the first place whose multiple by `f` lies beyond the list. */
  ghost predicate Pointer(u: seq<nat>, f: nat, p: nat) {
    Behind(u, f, p) && u[p] * f > u[|u| - 1]
  }

  function Min(a: nat, b: nat, c: nat): (m: nat)
    ensures m <= a && m <= b && m <= c && (m == a || m == b || m == c)
  {
    var ab := if a < b then a else b;
    if ab < c then ab else c
  }

  /** All three pointers, and a number that is at most each of the candidates they lead to. */
  ghost predicate Least(u: seq<nat>, p2: nat, p3: nat, p5: nat, m: nat) {
    && Pointer(u, 2, p2) && Pointer(u, 3, p3) && Pointer(u, 5, p5)
    && m <= u[p2] * 2 && m <= u[p3] * 3 && m <= u[p5] * 5
  }

  /** No number of this form lies between the end of the list and the least of the three candidates. */
  lemma {:induction false} NextIsLeast(u: seq<nat>, p2: nat, p3: nat, p5: nat, m: nat, x: nat)
    requires Listed(u) && Least(u, p2, p3, p5, m) && Ugly(x) && x > u[|u| - 1]
    ensures x >= m
    decreases x, 0
  {
    LastPositive(u);
    hide Listed, Pointer;
    if x % 2 == 0 && Ugly(x / 2) {
      Candidate(u, p2, p3, p5, m, 2, p2, x / 2, x);
    } else if x % 3 == 0 && Ugly(x / 3) {
      Candidate(u, p2, p3, p5, m, 3, p3, x / 3, x);
    } else {
      Candidate(u, p2, p3, p5, m, 5, p5, x / 5, x);
    }
  }

  lemma LastPositive(u: seq<nat>)
    requires Listed(u)
    ensures |u| > 0 && u[|u| - 1] > 0
  {
  }

  lemma {:induction false} Candidate(u: seq<nat>, p2: nat, p3: nat, p5: nat, m: nat, f: nat, p: nat, y: nat, x: nat)
    requires Listed(u) && Least(u, p2, p3, p5, m) && Pointer(u, f, p) && m <= u[p] * f
    requires f > 1 && x == y * f && y <= x && Ugly(y) && x > u[|u| - 1]
    ensures x >= m
    decreases y, 1
  {
    hide Least, Ugly;
    if y <= u[|u| - 1] {
      InList(u, f, p, y);
    } else {
      hide Listed, Pointer;
      NextIsLeast(u, p2, p3, p5, m, y);
    }
  }

  lemma InList(u: seq<nat>, f: nat, p: nat, y: nat)
    requires Listed(u) && Pointer(u, f, p) && Ugly(y) && y <= u[|u| - 1] && y * f > u[|u| - 1]
    ensures y * f >= u[p] * f
  {
    hide Ugly;
    var j :| 0 <= j < |u| && u[j] == y;
    assert j >= p;
    assert u[j] >= u[p];
    hide Listed, Pointer;
    Monotone(u[p], u[j], f);
  }

  lemma Monotone(a: nat, b: nat, f: nat)
    requires a <= b
    ensures a * f <= b * f
  {
  }

  lemma OrderAppend(u: seq<nat>, m: nat)
    requires Ordered(u) && Ugly(m) && m > u[|u| - 1]
    ensures Ordered(u + [m])
  {
    hide Ugly;
    forall i | 0 <= i < |u| ensures u[i] < m {
      assert u[i] <= u[|u| - 1];
    }
  }

  lemma CompleteAppend(u: seq<nat>, m: nat)
    requires Complete(u) && forall x: nat :: u[|u| - 1] < x < m ==> !Ugly(x)
    ensures Complete(u + [m])
  {
    hide Ugly;
    forall x: nat | Ugly(x) && x <= m ensures x in u + [m] {
      if x > u[|u| - 1] { assert x == m; }
    }
  }

  lemma ListAppend(u: seq<nat>, m: nat)
    requires Listed(u) && Rank(u[|u| - 1]) == |u| && Ugly(m) && m > u[|u| - 1]
    requires forall x: nat :: u[|u| - 1] < x < m ==> !Ugly(x)
    ensures Listed(u + [m]) && Rank(m) == |u| + 1
  {
    NoneBetween(u[|u| - 1], m - 1);
    assert Rank(m) == Rank(m - 1) + 1;
    hide Ugly, Rank, Ordered, Complete;
    OrderAppend(u, m);
    CompleteAppend(u, m);
  }

  /** The list goes on with the least candidate. */
  lemma ListGrows(u: seq<nat>, p2: nat, p3: nat, p5: nat)
    requires Listed(u) && Pointer(u, 2, p2) && Pointer(u, 3, p3) && Pointer(u, 5, p5) && Rank(u[|u| - 1]) == |u|
    ensures var m := Min(u[p2] * 2, u[p3] * 3, u[p5] * 5); m > u[|u| - 1] && Listed(u + [m]) && Rank(m) == |u| + 1
  {
    hide Rank, Ugly;
    var last, m := u[|u| - 1], Min(u[p2] * 2, u[p3] * 3, u[p5] * 5);
    TimesUgly(u[p2]);
    TimesUgly(u[p3]);
    TimesUgly(u[p5]);
    assert Least(u, p2, p3, p5, m);
    hide Listed, Pointer, Least;
    forall x: nat | last < x < m ensures !Ugly(x) {
      if Ugly(x) { NextIsLeast(u, p2, p3, p5, m, x); }
    }
    ListAppend(u, m);
  }

  lemma BehindStays(u: seq<nat>, f: nat, p: nat, m: nat)
    requires Behind(u, f, p) && m > u[|u| - 1]
    ensures Behind(u + [m], f, p)
  {
  }

  /** One of the three loops: the pointer moves to the first place whose multiple lies beyond the list. */
  method Advance(u: seq<nat>, f: nat, start: nat) returns (p: nat)
    requires Listed(u) && f > 1 && Behind(u, f, start)
    ensures Pointer(u, f, p)
  {
    p := start;
    var last := u[|u| - 1];
    assert last > 0;
    hide Listed;
    Monotone(2, f, last);
    while u[p] * f <= last
      invariant Behind(u, f, p)
      decreases |u| - p
    {
      p := p + 1;
    }
  }

  /** Returns the number of this form that has exactly `index - 1` smaller ones. */
  method GetUglyNumber(index: nat) returns (r: nat)
    requires index >= 1
    ensures Ugly(r) && Rank(r) == index
  {
    var uglyNums := [1];
    var p2, p3, p5 := 0, 0, 0;
    ListStarts();
    var i := 1;
    while i < index
      invariant 1 <= i <= index && |uglyNums| == i && Listed(uglyNums) && Rank(uglyNums[i - 1]) == i
      invariant Behind(uglyNums, 2, p2) && Behind(uglyNums, 3, p3) && Behind(uglyNums, 5, p5)
    {
      hide Ugly, Rank, Listed, Behind;
      p2 := Advance(uglyNums, 2, p2);
      p3 := Advance(uglyNums, 3, p3);
      p5 := Advance(uglyNums, 5, p5);
      PointerIn(uglyNums, 2, p2);
      PointerIn(uglyNums, 3, p3);
      PointerIn(uglyNums, 5, p5);
      ListGrows(uglyNums, p2, p3, p5);
      var m := Min(uglyNums[p2] * 2, uglyNums[p3] * 3, uglyNums[p5] * 5);
      BehindStays(uglyNums, 2, p2, m);
      BehindStays(uglyNums, 3, p3, m);
      BehindStays(uglyNums, 5, p5, m);
      uglyNums := uglyNums + [m];
      i := i + 1;
    }
    r := uglyNums[index - 1];
  }

  lemma PointerIn(u: seq<nat>, f: nat, p: nat)
    requires Pointer(u, f, p)
    ensures p < |u| && Behind(u, f, p)
  {
  }

  lemma ListStarts()
    ensures Listed([1]) && Rank(1) == 1
    ensures Behind([1], 2, 0) && Behind([1], 3, 0) && Behind([1], 5, 0)
  {
    assert Rank(1) == Rank(0) + 1;
  }
}
