/**
 * The two packed words: `AtomicMarkablePointer` keeps a mark in the lowest bit of a pointer, and
 * `CountedNodePtr` keeps a 16-bit count above a 48-bit pointer. The step systems work with
 * the unpacked pairs; here the packing itself is shown to be faithful, and exactly when.
 */
module PackedWords {

  // ---------- AtomicMarkablePointer ----------

  const MARKED: bv64 := 1

  function Bit(mark: bool): bv64 {
    if mark then 1 else 0
  }

  function Pack(p: bv64, mark: bool): bv64 {
    p | Bit(mark)
  }

  function Reference(w: bv64): bv64 {
    if w & MARKED != 0 then w & !MARKED else w
  }

  predicate IsMarked(w: bv64) {
    w & MARKED != 0
  }

  /** Nodes are aligned: their addresses are even. */
  predicate Even(p: bv64) {
    p & 1 == 0
  }

  lemma PackEven(p: bv64, mark: bool)
    requires Even(p)
    ensures Reference(Pack(p, mark)) == p && IsMarked(Pack(p, mark)) == mark
  {
  }

  lemma PackOdd(p: bv64, mark: bool)
    requires !Even(p)
    ensures Reference(Pack(p, mark)) != p
  {
  }

  /** Pointer and mark can be read back from the word exactly when the pointer is even. */
  lemma PackRoundTrip(p: bv64, mark: bool)
    ensures (Reference(Pack(p, mark)) == p && IsMarked(Pack(p, mark)) == mark) <==> Even(p)
  {
    hide Reference, Pack, IsMarked, Even;
    if Even(p) { PackEven(p, mark); } else { PackOdd(p, mark); }
  }

  lemma PackInjective(p: bv64, q: bv64, a: bool, b: bool)
    requires Even(p) && Even(q)
    ensures Pack(p, a) == Pack(q, b) <==> p == q && a == b
  {
  }

  class AtomicMarkablePointer {
    var word: bv64

    constructor (p: bv64, mark: bool)
      ensures word == Pack(p, mark)
    {
      word := Pack(p, mark);
    }

    /** The even pointer and the mark that the word was packed from: there is one such pair for every word. */
    method Get() returns (p: bv64, mark: bool)
      ensures Even(p) && word == Pack(p, mark)
      ensures forall q, m :: Even(q) && word == Pack(q, m) ==> p == q && mark == m
    {
      WordIsItsPair(word);
      forall q, m | Even(q) && word == Pack(q, m) ensures Reference(word) == q && IsMarked(word) == m {
        PackEven(q, m);
      }
      var w := word;
      mark := w & MARKED == MARKED;
      p := if mark then w & !MARKED else w;
    }

    /** The even pointer that the word was packed from, with whatever mark. */
    method GetReference() returns (p: bv64)
      ensures Even(p) && exists mark :: word == Pack(p, mark)
      ensures forall q, m :: Even(q) && word == Pack(q, m) ==> p == q
    {
      WordIsItsPair(word);
      forall q, m | Even(q) && word == Pack(q, m) ensures Reference(word) == q {
        PackEven(q, m);
      }
      var w := word;
      p := if w & MARKED != 0 then w & !MARKED else w;
    }

    /** `compare_exchange_strong`: one atomic step. */
    method CompareExchange(expected: bv64, desired: bv64) returns (ok: bool)
      modifies this
      ensures ok == (old(word) == expected)
      ensures word == if ok then desired else old(word)
    {
      ok := word == expected;
      if ok { word := desired; }
    }

    /**
     * `compareAndSet` loads the word, gives up if its mark is not the expected one, and otherwise makes one
     * compare-exchange. `meanwhile` is the word that other threads have left there between the two. A success stores
     * the new pointer and mark, a failure nothing.
     */
    method CompareAndSet(expected: bv64, desired: bv64, expectedMark: bool, newMark: bool, meanwhile: bv64)
      returns (ok: bool)
      modifies this
      ensures ok <==> IsMarked(old(word)) == expectedMark && meanwhile == Pack(expected, expectedMark)
      ensures ok ==> word == Pack(desired, newMark)
      ensures ok && Even(desired) ==> Reference(word) == desired && IsMarked(word) == newMark
      ensures !ok ==> word == meanwhile
      ensures (word, ok) == LoadThenCas(old(word), meanwhile, expected, desired, expectedMark, newMark)
    {
      if Even(desired) { PackEven(desired, newMark); }
      var mark := IsMarked(word);
      word := meanwhile;
      if mark == expectedMark {
        ok := CompareExchange(Pack(expected, mark), Pack(desired, newMark));
      } else {
        ok := false;
      }
    }
  }

  /** The word and the answer of a load that finds `loaded`, then a compare-exchange that finds `meanwhile`. */
  function LoadThenCas(loaded: bv64, meanwhile: bv64, expected: bv64, desired: bv64, expectedMark: bool,
                       newMark: bool): (bv64, bool) {
    if IsMarked(loaded) == expectedMark && meanwhile == Pack(expected, expectedMark) then (Pack(desired, newMark), true)
    else (meanwhile, false)
  }

  /** The atomic operation on pointer and mark that callers rely on. */
  function AtomicCas(w: bv64, expected: bv64, desired: bv64, expectedMark: bool, newMark: bool): (bv64, bool) {
    if Reference(w) == expected && IsMarked(w) == expectedMark then (Pack(desired, newMark), true) else (w, false)
  }

  /**
   * Whatever happens between its load and its compare-exchange, `compareAndSet` on an aligned expected pointer is
   * atomic: it fails as the atomic operation would at the load, or acts as it would at the compare-exchange.
   */
  lemma CompareAndSetIsAtomic(loaded: bv64, meanwhile: bv64, expected: bv64, desired: bv64, expectedMark: bool,
                              newMark: bool)
    requires Even(expected)
    ensures var (w, ok) := LoadThenCas(loaded, meanwhile, expected, desired, expectedMark, newMark);
      || (!ok && w == meanwhile && AtomicCas(loaded, expected, desired, expectedMark, newMark) == (loaded, false))
      || (w, ok) == AtomicCas(meanwhile, expected, desired, expectedMark, newMark)
  {
    WordIsItsPair(meanwhile);
    PackInjective(Reference(meanwhile), expected, IsMarked(meanwhile), expectedMark);
  }

  /**
   * On a word with pointer `p` and mark `m`, the atomic operation compares both, and a success stores both new ones.
   */
  lemma AtomicCasOnPairs(p: bv64, m: bool, expected: bv64, desired: bv64, expectedMark: bool, newMark: bool)
    requires Even(p) && Even(desired)
    ensures var (w, ok) := AtomicCas(Pack(p, m), expected, desired, expectedMark, newMark);
      && ok == (p == expected && m == expectedMark)
      && Even(Reference(w)) && w == Pack(Reference(w), IsMarked(w))
      && Reference(w) == (if ok then desired else p) && IsMarked(w) == (if ok then newMark else m)
  {
    PackEven(p, m);
    PackEven(desired, newMark);
    hide Reference, IsMarked, Pack;
    WordIsItsPair(Pack(p, m));
    WordIsItsPair(Pack(desired, newMark));
  }

  lemma WordIsItsPair(w: bv64)
    ensures Even(Reference(w)) && w == Pack(Reference(w), IsMarked(w))
  {
  }

  // ---------- CountedNodePtr ----------

  const MASK: bv64 := 0x0000_ffff_ffff_ffff

  function GetPtr(store: bv64): bv64 {
    store & MASK
  }

  function SetPtr(store: bv64, p: bv64): bv64 {
    (store & !MASK) | p
  }

  function GetCount(store: bv64): bv64 {
    store >> 48
  }

  function SetCount(store: bv64, count: bv64): bv64 {
    (store & MASK) | (count << 48)
  }

  lemma SetPtrParts(store: bv64, p: bv64)
    ensures GetPtr(SetPtr(store, p)) == GetPtr(p)
    ensures GetCount(SetPtr(store, p)) == GetCount(store) | GetCount(p)
  {
  }

  lemma SmallPointer(p: bv64)
    requires p < 0x1_0000_0000_0000
    ensures GetPtr(p) == p && GetCount(p) == 0
  {
  }

  lemma LargePointer(p: bv64)
    requires p >= 0x1_0000_0000_0000
    ensures GetPtr(p) != p
  {
  }

  /** `set_ptr` does not mask its argument: the pointer can be read back exactly when it fits 48 bits. */
  lemma SetPtrRoundTrip(store: bv64, p: bv64)
    ensures GetPtr(SetPtr(store, p)) == p <==> p < 0x1_0000_0000_0000
  {
    SetPtrParts(store, p);
    hide GetPtr, SetPtr, GetCount;
    if p < 0x1_0000_0000_0000 { SmallPointer(p); } else { LargePointer(p); }
  }

  lemma SetCountPointer(store: bv64, count: bv64)
    ensures GetPtr(SetCount(store, count)) == GetPtr(store)
  {
  }

  lemma SetCountCount(store: bv64, count: bv64)
    ensures GetCount(SetCount(store, count)) == count & 0xffff
  {
  }

  lemma LargeCount(count: bv64)
    requires count >= 0x1_0000
    ensures count & 0xffff != count
  {
  }

  lemma SmallCount(count: bv64)
    requires count < 0x1_0000
    ensures count & 0xffff == count
  {
  }

  /** Storing a count never touches the pointer, and the count can be read back exactly when it fits 16 bits. */
  lemma SetCountRoundTrip(store: bv64, count: bv64)
    ensures GetPtr(SetCount(store, count)) == GetPtr(store)
    ensures GetCount(SetCount(store, count)) == count <==> count < 0x1_0000
  {
    hide GetPtr, SetCount, GetCount;
    SetCountPointer(store, count);
    SetCountCount(store, count);
    if count < 0x1_0000 { SmallCount(count); } else { LargeCount(count); }
  }

  /**
   * Two stores are the same word exactly when they hold the same pointer and the same count, so one compare-exchange
   * compares both.
   */
  lemma StoreIsItsPair(a: bv64, b: bv64)
    ensures a == b <==> GetPtr(a) == GetPtr(b) && GetCount(a) == GetCount(b)
  {
  }

  /** The head's increment in `increase_head_count`: at the largest count it wraps to zero and leaves the pointer. */
  lemma IncrementWraps(store: bv64)
    ensures GetPtr(SetCount(store, GetCount(store) + 1)) == GetPtr(store)
    ensures GetCount(SetCount(store, GetCount(store) + 1)) ==
      if GetCount(store) == 0xffff then 0 else GetCount(store) + 1
  {
  }
}
