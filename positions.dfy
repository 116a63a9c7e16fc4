/** Flattened locus positions: a chromosome of genes of `n` loci numbers
    locus `k` of gene `g` as `g * n + k`, and `divmod` recovers the pair.
    Both are defined by recursion, so that reasoning about them stays in
    linear arithmetic; `FlatIsProduct` and `DivModIsDivision` tie them to
    multiplication and Python's `divmod`. */
module Positions {

  /** The position `g * n + k` of locus `k` of gene `g`. */
  function Flat(g: nat, k: nat, n: nat): nat
    decreases g
  {
    if g == 0 then k else Flat(g - 1, k, n) + n
  }

  lemma {:induction false} FlatIsProduct(g: nat, k: nat, n: nat)
    ensures Flat(g, k, n) == g * n + k
    decreases g
  {
    if g > 0 {
      FlatIsProduct(g - 1, k, n);
      assert (g - 1) * n + n == g * n;
    }
  }

  /** Every gene before gene `g` contributes its `n` loci. */
  lemma {:induction false} FlatStep(g: nat, k: nat, n: nat)
    ensures Flat(g, k, n) >= k && (g >= 1 ==> Flat(g, k, n) >= n + k)
    decreases g
  {
    if g > 0 {
      FlatStep(g - 1, k, n);
    }
  }

  /** Flattened positions are ordered like their `(gene, locus)` pairs. */
  lemma {:induction false} FlatLess(g: nat, k: nat, h: nat, l: nat, n: nat)
    requires k < n && l < n
    ensures Flat(g, k, n) < Flat(h, l, n) <==> g < h || (g == h && k < l)
    decreases g + h
  {
    if g > 0 && h > 0 {
      FlatLess(g - 1, k, h - 1, l, n);
    } else if g > 0 {
      FlatStep(g, k, n);
    } else if h > 0 {
      FlatStep(h, l, n);
    }
  }

  /** `divmod(i, n)` for `n >= 1`: the gene and the locus of position `i`. */
  function DivMod(i: nat, n: nat): (r: (nat, nat))
    requires n >= 1
    ensures r.1 < n && Flat(r.0, r.1, n) == i
    decreases i
  {
    if i < n then (0, i)
    else
      var q := DivMod(i - n, n);
      (q.0 + 1, q.1)
  }

  /** A position has one pair: `divmod(Flat(g, k, n), n) == (g, k)`. */
  lemma {:induction false} FlatDivMod(g: nat, k: nat, n: nat)
    requires k < n
    ensures DivMod(Flat(g, k, n), n) == (g, k)
  {
    var i := Flat(g, k, n);
    var r := DivMod(i, n);
    FlatLess(g, k, r.0, r.1, n);
    FlatLess(r.0, r.1, g, k, n);
  }

  /** The recursive `divmod` is Python's floor division and modulo, which
      agree with Dafny's on non-negative operands. */
  lemma {:induction false} DivModIsDivision(i: nat, n: nat)
    requires n >= 1
    ensures DivMod(i, n) == (i / n, i % n)
  {
    DivFlat(i, n);
    FlatDivMod(i / n, i % n, n);
  }

  lemma DivFlat(i: nat, n: nat)
    requires n >= 1
    ensures i % n < n && Flat(i / n, i % n, n) == i
  {
    FlatIsProduct(i / n, i % n, n);
  }

  /** A position inside `count` genes lies in one of them. */
  lemma DivModBelow(i: nat, n: nat, count: nat)
    requires n >= 1 && i < Flat(count, 0, n)
    ensures DivMod(i, n).0 < count
  {
    var r := DivMod(i, n);
    FlatLess(r.0, r.1, count, 0, n);
  }

  /** Two positions `i1 < i2` have ordered pairs. */
  lemma DivModOrdered(i1: nat, i2: nat, n: nat)
    requires n >= 1 && i1 < i2
    ensures var (ga, aa) := DivMod(i1, n);
      var (gb, ab) := DivMod(i2, n);
      ga < gb || (ga == gb && aa < ab)
  {
    var r1, r2 := DivMod(i1, n), DivMod(i2, n);
    FlatLess(r1.0, r1.1, r2.0, r2.1, n);
  }

  /** A position lies in `[i1, i2)` exactly when its pair lies
      lexicographically between theirs. */
  lemma FlatBetween(i1: nat, i2: nat, n: nat, g: nat, k: nat)
    requires n >= 1 && k < n
    ensures var (ga, aa) := DivMod(i1, n);
      var (gb, ab) := DivMod(i2, n);
      (i1 <= Flat(g, k, n) < i2) <==>
        (ga < g || (ga == g && aa <= k)) && (g < gb || (g == gb && k < ab))
  {
    var r1, r2 := DivMod(i1, n), DivMod(i2, n);
    FlatLess(g, k, r1.0, r1.1, n);
    FlatLess(g, k, r2.0, r2.1, n);
  }

  /** The loci of one gene sit at consecutive positions. */
  lemma {:induction false} FlatShift(g: nat, k: nat, n: nat)
    ensures Flat(g, k, n) == Flat(g, 0, n) + k
    decreases g
  {
    if g > 0 {
      FlatShift(g - 1, k, n);
    }
  }

  lemma FlatShifts(g: nat, n: nat)
    ensures forall k :: Flat(g, k, n) == Flat(g, 0, n) + k
  {
    forall k
      ensures Flat(g, k, n) == Flat(g, 0, n) + k
    {
      FlatShift(g, k, n);
    }
  }

  lemma {:induction false} FlatMono(g: nat, h: nat, n: nat)
    requires g <= h
    ensures Flat(g, 0, n) <= Flat(h, 0, n)
    decreases h
  {
    if g < h {
      FlatMono(g, h - 1, n);
    }
  }

  /** Gene `g` of a chromosome of `count` genes ends inside it. */
  lemma GeneInside(g: nat, count: nat, n: nat)
    requires g < count
    ensures Flat(g, 0, n) + n == Flat(g + 1, 0, n) <= Flat(count, 0, n)
  {
    FlatMono(g + 1, count, n);
  }

  /** `len(chromosome) / genes` is the gene length. */
  lemma FlatQuotient(count: nat, n: nat)
    requires count >= 1
    ensures Flat(count, 0, n) / count == n
  {
    FlatIsProduct(count, 0, n);
    FlatIsProduct(n, 0, count);
    FlatDivMod(n, 0, count);
    DivModIsDivision(Flat(n, 0, count), count);
  }
}
