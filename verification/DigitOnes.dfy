/** `number_of_1`: how often the digit 1 occurs in the numbers up to `n`. */
module DigitOnes {
  /** The digits 1 of one number. */
  function Ones(n: nat): nat {
    if n == 0 then 0 else Ones(n / 10) + (if n % 10 == 1 then 1 else 0)
  }

  /** The digits 1 of all numbers below `m`. */
  function OnesBelow(m: nat): nat {
    if m == 0 then 0 else OnesBelow(m - 1) + Ones(m - 1)
  }

  function Pow10(k: nat): (p: nat)
    ensures p > 0
  {
    if k == 0 then 1 else 10 * Pow10(k - 1)
  }

  function IsOne(f: nat): nat {
    if f == 1 then 1 else 0
  }

  // ---------- Arithmetic ----------

  lemma MulStep(f: int, x: int)
    ensures f * x == (f - 1) * x + x
  {
  }

  lemma MulAssoc(a: int, b: int, c: int)
    ensures a * (b * c) == a * b * c
  {
  }

  lemma MulAtLeast(d: int, p: nat)
    requires d >= 1
    ensures d * p >= p
  {
  }

  lemma MulDiff(a: int, b: int, p: int)
    ensures a * p - b * p == (a - b) * p
  {
  }

  /** Quotient and remainder are unique. */
  lemma ModIs(n: nat, p: nat, q: nat, r: nat)
    requires p > 0 && n == q * p + r && r < p
    ensures n % p == r
  {
    var q', r' := n / p, n % p;
    assert n == q' * p + r';
    MulDiff(q, q', p);
    MulDiff(q', q, p);
    if q - q' >= 1 {
      MulAtLeast(q - q', p);
    } else if q' - q >= 1 {
      MulAtLeast(q' - q, p);
    }
  }

  // ---------- Counting ----------

  /** A leading digit `f` adds its own 1 to the digits behind it. */
  lemma {:induction false} LeadingDigit(f: nat, k: nat, j: nat)
    requires f < 10 && j < Pow10(k)
    ensures Ones(f * Pow10(k) + j) == IsOne(f) + Ones(j)
  {
    if k == 0 {
      assert Ones(0) == 0;
    } else {
      var p := Pow10(k - 1);
      MulAssoc(f, 10, p);
      MulAssoc(10, f, p);
      LeadingDigit(f, k - 1, j / 10);
      LastDigit(f * p, j);
    }
  }

  lemma LastDigit(m: nat, j: nat)
    ensures Ones(10 * m + j) == Ones(m + j / 10) + (Ones(j) - Ones(j / 10))
  {
    var n := 10 * m + j;
    assert n / 10 == m + j / 10 && n % 10 == j % 10;
  }

  /** The first `m` numbers that start with `f`. */
  lemma {:induction false} PartOfBlock(f: nat, k: nat, m: nat)
    requires f < 10 && m <= Pow10(k)
    ensures OnesBelow(f * Pow10(k) + m) == OnesBelow(f * Pow10(k)) + OnesBelow(m) + m * IsOne(f)
  {
    hide Pow10, IsOne, Ones;
    if m > 0 {
      PartOfBlock(f, k, m - 1);
      LeadingDigit(f, k, m - 1);
      MulStep(m, IsOne(f));
    }
  }

  /** `f` whole blocks. */
  lemma {:induction false} Blocks(f: nat, k: nat)
    requires f <= 10
    ensures OnesBelow(f * Pow10(k)) == f * OnesBelow(Pow10(k)) + (if f > 1 then Pow10(k) else 0)
  {
    hide Pow10, Ones;
    if f > 0 {
      Blocks(f - 1, k);
      PartOfBlock(f - 1, k, Pow10(k));
      MulStep(f, Pow10(k));
      MulStep(f, OnesBelow(Pow10(k)));
    }
  }

  /** A block of `10^(k+1)` numbers holds `(k+1) * 10^k` ones. */
  lemma {:induction false} WholeBlock(k: nat)
    ensures OnesBelow(Pow10(k + 1)) == (k + 1) * Pow10(k)
  {
    Blocks(10, k);
    MulStep(k + 1, Pow10(k));
    if k == 0 {
      ZeroHasNone();
    } else {
      WholeBlock(k - 1);
      hide OnesBelow;
      MulAssoc(10, k, Pow10(k - 1));
      MulAssoc(k, 10, Pow10(k - 1));
    }
  }

  lemma ZeroHasNone()
    ensures OnesBelow(1) == 0 && Pow10(0) == 1
  {
    assert Ones(0) == 0 && OnesBelow(1) == OnesBelow(0) + Ones(0);
  }

  /** The count for a number that starts with `first` and has `k + 1` more digits. */
  lemma SplitAtFirst(first: nat, k: nat, rest: nat)
    requires 0 < first < 10 && rest < Pow10(k + 1)
    ensures OnesBelow(first * Pow10(k + 1) + rest + 1)
         == (if first == 1 then rest + 1 else Pow10(k + 1)) + first * (k + 1) * Pow10(k) + OnesBelow(rest + 1)
  {
    hide OnesBelow, Pow10;
    PartOfBlock(first, k + 1, rest + 1);
    Blocks(first, k + 1);
    WholeBlock(k);
    MulAssoc(first, k + 1, Pow10(k));
  }

  /** `number_of_1`, with exact powers in place of the floating-point `pow`. */
  method NumberOf1(n: int) returns (r: int)
    ensures r == if n <= 0 then 0 else OnesBelow(n + 1)
    decreases n
  {
    if n <= 0 {
      return 0;
    }
    hide Ones, OnesBelow;
    var first, len := n, 1;
    ghost var rest := 0;
    while first >= 10
      invariant len >= 1 && first > 0 && 0 <= rest < Pow10(len - 1) && n == first * Pow10(len - 1) + rest
      decreases first
    {
      rest := Stripped(first, Pow10(len - 1), rest);
      first := first / 10;
      len := len + 1;
    }
    ZeroHasNone();
    if len == 1 && first >= 1 {
      SmallNumbers(n);
      return 1;
    }
    var powLenM2 := Pow10(len - 2);
    SplitAtFirst(first, len - 2, rest);
    ModIs(n, powLenM2 * 10, first, rest);
    MulAtLeast(first, powLenM2 * 10);
    var numFirstDigit := powLenM2 * 10;
    if first == 1 {
      numFirstDigit := n % numFirstDigit + 1;
    }
    var numOtherDigit := first * (len - 1) * powLenM2;
    var others := NumberOf1(n % (powLenM2 * 10));
    return numFirstDigit + numOtherDigit + others;
  }

  /** The last digit of `first` joins the digits behind it. */
  lemma Stripped(first: nat, p: nat, rest: nat) returns (rest': nat)
    requires rest < p
    ensures rest' < 10 * p && (first / 10) * (10 * p) + rest' == first * p + rest
  {
    var q, d := first / 10, first % 10;
    rest' := d * p + rest;
    assert d * p <= 9 * p;
    assert first == 10 * q + d;
    assert (10 * q + d) * p == (10 * q) * p + d * p;
    MulAssoc(q, 10, p);
  }

  lemma SmallNumbers(n: nat)
    requires 1 <= n < 10
    ensures OnesBelow(n + 1) == 1
  {
    ZeroHasNone();
    PartOfBlock(n, 0, 1);
    Blocks(n, 0);
  }
}
