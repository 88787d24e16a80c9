/** Seeded card assignment: a Fisher–Yates shuffle of the catalog ids driven by a
  * seeded random stream, followed by one reversal draw per pick. */
module CardPicking {

  /** The values a seeded generator returns, in call order: `s(0)` is the first `rnd()`. */
  type Stream = nat -> real

  /** `mulberry32(hashSeed(seed))`: the generator itself is not part of this model, only
    * the fact that it is a function of the seed string. */
  type SeededRng = string -> Stream

  /** Every value the generator can return lies in [0, 1). */
  ghost predicate UnitStream(s: Stream)
  {
    forall i: nat :: 0.0 <= s(i) < 1.0
  }

  datatype CardPick = CardPick(id: string, reversed: bool)

  /** `Math.floor(r * (i + 1))`: the partner position for the swap at index `i`. */
  function SwapIndex(r: real, i: nat): (j: int)
    requires 0.0 <= r < 1.0
    ensures 0 <= j <= i
  {
    var m := (i + 1) as real;
    assert r * m < m by { assert (1.0 - r) * m > 0.0; }
    (r * m).Floor
  }

  function Swap(a: seq<string>, i: nat, j: nat): (b: seq<string>)
    requires i < |a| && j < |a|
  {
    a[i := a[j]][j := a[i]]
  }

  predicate Distinct(a: seq<string>)
  {
    forall p, q :: 0 <= p < q < |a| ==> a[p] != a[q]
  }

  /** The draw consumed by the swap at index `i` of a catalog of length `len`: the loop
    * starts at `len - 1` and takes one value per index. */
  function ShuffleDraw(len: nat, i: int): nat
    requires 0 < i < len
  {
    len - 1 - i
  }

  /** The shuffle still to be done when the descending loop is at index `i`: swaps at
    * `i`, `i - 1`, ..., `1`, in that order. */
  function ShuffleFrom(a: seq<string>, s: Stream, i: int): (r: seq<string>)
    requires UnitStream(s)
    requires -1 <= i < |a|
    ensures |r| == |a|
    decreases i
  {
    if i <= 0 then a
    else ShuffleFrom(Swap(a, i, SwapIndex(s(ShuffleDraw(|a|, i)), i)), s, i - 1)
  }

  lemma SwapPermutes(a: seq<string>, i: nat, j: nat)
    requires i < |a| && j < |a|
    ensures multiset(Swap(a, i, j)) == multiset(a)
  {
    if i != j {
      var b := a[i := a[j]];
      assert b[j] == a[j];
      assert multiset(b) == multiset(a) - multiset{a[i]} + multiset{a[j]};
      assert multiset(b[j := a[i]]) == multiset(b) - multiset{a[j]} + multiset{a[i]};
    }
  }

  /** The whole in-place shuffle of `ids`, as the loop from `ids.length - 1` down to 1 does it. */
  function Shuffle(a: seq<string>, s: Stream): (r: seq<string>)
    requires UnitStream(s)
  {
    ShuffleFrom(a, s, |a| - 1)
  }

  /** Number of draws the shuffle consumes before the first reversal draw. */
  function ShuffleDraws(len: nat): nat
  {
    if len == 0 then 0 else len - 1
  }

  function Min(a: nat, b: nat): nat
  {
    if a <= b then a else b
  }

  /** The picks: the first `n` shuffled ids, pick `k` reversed iff its draw is below 0.5. */
  function Picks(catalog: seq<string>, s: Stream, n: nat): (picks: seq<CardPick>)
    requires UnitStream(s)
  {
    var shuffled := Shuffle(catalog, s);
    seq(Min(n, |catalog|), k requires 0 <= k < Min(n, |catalog|) =>
      CardPick(shuffled[k], s(ShuffleDraws(|catalog|) + k) < 0.5))
  }

  /** The Fisher–Yates loop of `pickCardsDeterministic`: for `i` from `ids.length - 1` down
    * to 1, swap `ids[i]` with `ids[floor(rnd() * (i + 1))]`. Returns how many draws it took. */
  method ShuffleInPlace(ids: array<string>, s: Stream) returns (drawn: nat)
    requires UnitStream(s)
    modifies ids
    ensures ids[..] == Shuffle(old(ids[..]), s)
    ensures drawn == ShuffleDraws(ids.Length)
  {
    ghost var original := ids[..];
    drawn := 0;
    var i := ids.Length - 1;
    while i > 0
      invariant -1 <= i < ids.Length
      invariant ids.Length > 0 ==> i >= 0
      invariant drawn == ids.Length - 1 - i
      invariant ShuffleFrom(ids[..], s, i) == Shuffle(original, s)
    {
      var r := s(drawn);
      drawn := drawn + 1;
      var j := SwapIndex(r, i);
      ghost var before := ids[..];
      ids[i], ids[j] := ids[j], ids[i];
      assert ids[..] == Swap(before, i, j);
      i := i - 1;
    }
  }

  /** `pickCardsDeterministic`: copies the catalog, shuffles the copy in place while
    * consuming the stream, then draws one reversal flag per kept id. */
  method PickCardsDeterministic(rng: SeededRng, seedStr: string, allCardIds: seq<string>, n: nat)
    returns (picks: seq<CardPick>)
    requires UnitStream(rng(seedStr))
    ensures picks == Picks(allCardIds, rng(seedStr), n)
    ensures |picks| == Min(n, |allCardIds|)
    ensures forall k :: 0 <= k < |picks| ==> picks[k].id in allCardIds
  {
    var s := rng(seedStr);
    var ids := new string[|allCardIds|](k requires 0 <= k < |allCardIds| => allCardIds[k]);
    assert ids[..] == allCardIds;
    var drawn := ShuffleInPlace(ids, s);
    var m := Min(n, ids.Length);
    picks := [];
    var k := 0;
    while k < m
      invariant 0 <= k <= m
      invariant drawn == ShuffleDraws(ids.Length) + k
      invariant picks == Picks(allCardIds, s, n)[..k]
    {
      var r := s(drawn);
      drawn := drawn + 1;
      picks := picks + [CardPick(ids[k], r < 0.5)];
      k := k + 1;
    }
    assert picks == Picks(allCardIds, s, n);
    forall k | 0 <= k < |picks| ensures picks[k].id in allCardIds {
      PicksFromCatalog(allCardIds, s, n, k);
    }
  }

  /** Every picked id comes from the catalog. */
  lemma PicksFromCatalog(catalog: seq<string>, s: Stream, n: nat, k: nat)
    requires UnitStream(s)
    requires k < |Picks(catalog, s, n)|
    ensures Picks(catalog, s, n)[k].id in catalog
  {
    var shuffled := Shuffle(catalog, s);
    ShuffleIsPermutation(catalog, s);
    assert shuffled[k] in multiset(shuffled);
  }

  /** The shuffled ids are a permutation of the catalog; a catalog of at most one id is
    * left as it is. */
  lemma ShuffleIsPermutation(catalog: seq<string>, s: Stream)
    requires UnitStream(s)
    ensures multiset(Shuffle(catalog, s)) == multiset(catalog)
    ensures |catalog| <= 1 ==> Shuffle(catalog, s) == catalog
  {
    ShuffleFromPermutes(catalog, s, |catalog| - 1);
  }

  lemma {:induction false} ShuffleFromPermutes(a: seq<string>, s: Stream, i: int)
    requires UnitStream(s) && -1 <= i < |a|
    ensures multiset(ShuffleFrom(a, s, i)) == multiset(a)
    decreases i
  {
    if i > 0 {
      var j := SwapIndex(s(ShuffleDraw(|a|, i)), i);
      SwapPermutes(a, i, j);
      ShuffleFromPermutes(Swap(a, i, j), s, i - 1);
    }
  }

  lemma {:induction false} SwapKeepsDistinct(a: seq<string>, i: nat, j: nat)
    requires i < |a| && j < |a| && Distinct(a)
    ensures Distinct(Swap(a, i, j))
  {
    var b := Swap(a, i, j);
    forall p, q | 0 <= p < q < |b| ensures b[p] != b[q] {
      var p' := if p == i then j else if p == j then i else p;
      var q' := if q == i then j else if q == j then i else q;
      assert b[p] == a[p'] && b[q] == a[q'];
      assert p' != q';
      if p' < q' { assert a[p'] != a[q']; } else { assert a[q'] != a[p']; }
    }
  }

  lemma {:induction false} ShuffleFromKeepsDistinct(a: seq<string>, s: Stream, i: int)
    requires UnitStream(s) && -1 <= i < |a| && Distinct(a)
    ensures Distinct(ShuffleFrom(a, s, i))
    decreases i
  {
    if i > 0 {
      var j := SwapIndex(s(ShuffleDraw(|a|, i)), i);
      SwapKeepsDistinct(a, i, j);
      ShuffleFromKeepsDistinct(Swap(a, i, j), s, i - 1);
    }
  }

  /** With a catalog of distinct ids, the picks have pairwise-distinct ids. */
  lemma PicksDistinct(catalog: seq<string>, s: Stream, n: nat)
    requires UnitStream(s) && Distinct(catalog)
    ensures forall p, q :: 0 <= p < q < |Picks(catalog, s, n)| ==>
      Picks(catalog, s, n)[p].id != Picks(catalog, s, n)[q].id
  {
    ShuffleFromKeepsDistinct(catalog, s, |catalog| - 1);
  }

  /** The result has `min(n, catalog size)` picks; pick `k` holds the `k`-th shuffled id and
    * is reversed exactly when draw `catalogLen - 1 + k` is below 0.5, so every reversal
    * draw comes after all the shuffle draws. */
  lemma PicksShape(catalog: seq<string>, s: Stream, n: nat)
    requires UnitStream(s)
    ensures |Picks(catalog, s, n)| == Min(n, |catalog|)
    ensures forall k :: 0 <= k < |Picks(catalog, s, n)| ==>
      Picks(catalog, s, n)[k].id == Shuffle(catalog, s)[k] &&
      (Picks(catalog, s, n)[k].reversed <==> s(|catalog| - 1 + k) < 0.5)
  {
    var p := Picks(catalog, s, n);
    forall k | 0 <= k < |p|
      ensures p[k].id == Shuffle(catalog, s)[k] && (p[k].reversed <==> s(|catalog| - 1 + k) < 0.5)
    {
      assert ShuffleDraws(|catalog|) == |catalog| - 1;
    }
  }

  /** The shuffle reads only the draws it consumes: two streams that agree on them give
    * the same permutation. */
  lemma {:induction false} ShuffleFromUsesOnlyItsDraws(a: seq<string>, s1: Stream, s2: Stream, i: int)
    requires UnitStream(s1) && UnitStream(s2) && -1 <= i < |a|
    requires forall d: nat :: d < ShuffleDraws(|a|) ==> s1(d) == s2(d)
    ensures ShuffleFrom(a, s1, i) == ShuffleFrom(a, s2, i)
    decreases i
  {
    if i > 0 {
      assert s1(ShuffleDraw(|a|, i)) == s2(ShuffleDraw(|a|, i));
      var j := SwapIndex(s1(ShuffleDraw(|a|, i)), i);
      ShuffleFromUsesOnlyItsDraws(Swap(a, i, j), s1, s2, i - 1);
    }
  }

  /** Determinism: the picks depend on the seed only through the draws they consume, so
    * the same seed string (hence the same stream) and catalog give the same picks. */
  lemma PicksDeterministic(rng: SeededRng, seed1: string, seed2: string, catalog: seq<string>, n: nat)
    requires UnitStream(rng(seed1)) && UnitStream(rng(seed2))
    requires forall d: nat :: d < ShuffleDraws(|catalog|) + n ==> rng(seed1)(d) == rng(seed2)(d)
    ensures Picks(catalog, rng(seed1), n) == Picks(catalog, rng(seed2), n)
  {
    ShuffleFromUsesOnlyItsDraws(catalog, rng(seed1), rng(seed2), |catalog| - 1);
  }
}
