/**
 * The counter loop both copies use to enumerate subsets: for `i` from 0 to `2^n - 1`,
 * the subset holds `elements[j]` for every `j` with `i & (1 << j)` non-zero.
 *
 * In JavaScript `1 << j` is a 32-bit shift and `&` works on 32-bit integers; for
 * `j < 32` and `i < 2^32` the test is non-zero exactly when bit `j` of `i` is set,
 * which is what `Bit` states. Callers therefore bound the element count by `MaxElements`.
 */
module PowerSets {

  const MaxElements: nat := 32

  function Pow2(n: nat): (r: nat)
    ensures r >= 1
  {
    if n == 0 then 1 else 2 * Pow2(n - 1)
  }

  /** Bit `j` of `i` is set. */
  predicate Bit(i: nat, j: nat) {
    if j == 0 then i % 2 == 1 else Bit(i / 2, j - 1)
  }

  lemma {:induction false} NoBitOfZero(j: nat)
    ensures !Bit(0, j)
  {
    if j > 0 {
      NoBitOfZero(j - 1);
    }
  }

  /** `2^n - 1` has its `n` low bits set. */
  lemma {:induction false} AllBitsOfMask(n: nat, j: nat)
    requires j < n
    ensures Bit(Pow2(n) - 1, j)
  {
    if j > 0 {
      assert (Pow2(n) - 1) / 2 == Pow2(n - 1) - 1;
      AllBitsOfMask(n - 1, j - 1);
    }
  }

  /** The elements among the first `m` that counter `i` selects, in their original order. */
  function Chosen<T>(elements: seq<T>, i: nat, m: nat): (r: seq<T>)
    requires m <= |elements|
    ensures |r| <= m
  {
    if m == 0 then []
    else Chosen(elements, i, m - 1) + (if Bit(i, m - 1) then [elements[m - 1]] else [])
  }

  /** A selection takes each element at most as often as it occurs. */
  lemma {:induction false} ChosenSubMultiset<T>(elements: seq<T>, i: nat, m: nat)
    requires m <= |elements|
    ensures multiset(Chosen(elements, i, m)) <= multiset(elements[..m])
  {
    if m > 0 {
      ChosenSubMultiset(elements, i, m - 1);
      assert elements[..m] == elements[..m - 1] + [elements[m - 1]];
    }
  }

  /** Counter 0 selects nothing. */
  lemma {:induction false} ChosenByZero<T>(elements: seq<T>, m: nat)
    requires m <= |elements|
    ensures Chosen(elements, 0, m) == []
  {
    if m > 0 {
      NoBitOfZero(m - 1);
      ChosenByZero(elements, m - 1);
    }
  }

  /** The last counter, `2^n - 1`, selects everything. */
  lemma {:induction false} ChosenByMask<T>(elements: seq<T>, m: nat)
    requires m <= |elements|
    ensures Chosen(elements, Pow2(|elements|) - 1, m) == elements[..m]
  {
    if m > 0 {
      AllBitsOfMask(|elements|, m - 1);
      ChosenByMask(elements, m - 1);
      assert elements[..m] == elements[..m - 1] + [elements[m - 1]];
    }
  }

  /** The last counter over all positions selects the whole sequence. */
  lemma ChosenAll<T>(elements: seq<T>, mask: nat)
    requires mask == Pow2(|elements|) - 1
    ensures Chosen(elements, mask, |elements|) == elements
  {
    ChosenByMask(elements, |elements|);
    assert elements[..|elements|] == elements;
  }

  /** Splicing one element into a list adds exactly that element to its multiset. */
  lemma SpliceMultiset<T>(list: seq<T>, p: nat, x: T)
    requires p <= |list|
    ensures multiset(list[..p] + [x] + list[p..]) == multiset(list) + multiset{x}
  {
    assert list == list[..p] + list[p..];
    assert multiset(list) == multiset(list[..p]) + multiset(list[p..]);
  }

  /** The inner loop of both copies: walks the element positions, keeping those counter `i` selects. */
  method SelectSubset<T>(elements: seq<T>, i: nat) returns (subset: seq<T>)
    ensures subset == Chosen(elements, i, |elements|)
  {
    subset := [];
    var j := 0;
    while j < |elements|
      invariant 0 <= j <= |elements|
      invariant subset == Chosen(elements, i, j)
    {
      if Bit(i, j) {
        subset := subset + [elements[j]];
      }
      j := j + 1;
    }
  }

  /** `array.reverse()`. */
  function Reverse<T>(s: seq<T>): (r: seq<T>)
    ensures |r| == |s|
    ensures forall k :: 0 <= k < |s| ==> r[k] == s[|s| - 1 - k]
    ensures multiset(r) == multiset(s)
  {
    if s == [] then []
    else
      assert s == [s[0]] + s[1..];
      Reverse(s[1..]) + [s[0]]
  }

}
