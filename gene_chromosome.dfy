/** The branch 0.2 chromosome: a list of `KarvaGene` objects, a head length, a
    linker and an organism number.  Operators copy the gene list, replace the
    genes they change by derived ones, and return the chromosome itself when
    the new list holds the very same gene objects. */
module GeneChromosome {
  import opened Symbols
  import opened Karva
  import opened Gene
  import opened Loci
  import opened PyList
  import opened Ids
  import opened Positions

  datatype Error = NegativeHead | NoGenes
  datatype Result<T> = Ok(value: T) | Err(error: Error)

  // ---------------------------------------------------------------------
  // Gene contents

  ghost predicate GeneOk(cfg: Config, head: nat, x: KarvaGene)
  {
    x.Valid() && x.head == head && AllelesOk(cfg, head, x.alleles)
  }

  /** The loci of every gene of a gene list. */
  function Alleles(gs: seq<KarvaGene>): (r: seq<seq<Symbol>>)
    ensures |r| == |gs| && forall g :: 0 <= g < |gs| ==> r[g] == gs[g].alleles
  {
    seq(|gs|, g requires 0 <= g < |gs| => gs[g].alleles)
  }

  /** `sum(len(g) for g in genes)`. */
  function TotalLength(gs: seq<seq<Symbol>>): nat
  {
    if gs == [] then 0 else |gs[0]| + TotalLength(gs[1..])
  }

  /** All genes of equal length `n` give `len(chromosome) == genes * n`,
      counted as the flattened position just past the last gene. */
  lemma {:induction false} TotalLengthUniform(gs: seq<seq<Symbol>>, n: nat)
    requires forall g :: 0 <= g < |gs| ==> |gs[g]| == n
    ensures TotalLength(gs) == Flat(|gs|, 0, n)
  {
    if gs != [] {
      TotalLengthUniform(gs[1..], n);
    }
  }

  // ---------------------------------------------------------------------
  // Mutation

  /** The `replacements` list `mutate` builds for the first `n` loci: one
      `(i, [new])` for each redrawn locus whose new allele differs. */
  function Replacements(a: seq<Symbol>, d: seq<real>, p: seq<Symbol>, rate: real, n: nat)
    : (reps: seq<(nat, seq<Symbol>)>)
    requires |d| == |p| == |a| && n <= |a|
    ensures forall r :: r in reps ==> r.0 < n && |r.1| == 1
  {
    if n == 0 then []
    else
      Replacements(a, d, p, rate, n - 1) +
      (if d[n - 1] < rate && p[n - 1] != a[n - 1] then [(n - 1, [p[n - 1]])] else [])
  }

  lemma OverwriteAllSnoc(a: seq<Symbol>, reps: seq<(nat, seq<Symbol>)>, x: (nat, seq<Symbol>))
    requires Fits(|a|, reps + [x])
    ensures Fits(|a|, reps) && Fits(|OverwriteAll(a, reps)|, [x])
    ensures OverwriteAll(a, reps + [x]) == Overwrite(OverwriteAll(a, reps), x.0, x.1)
    decreases |reps|
  {
    assert x in reps + [x];
    if reps == [] {
      assert [x][1..] == [];
    } else {
      assert (reps + [x])[1..] == reps[1..] + [x];
      assert reps[0] in reps + [x];
      OverwriteAllSnoc(Overwrite(a, reps[0].0, reps[0].1), reps[1..], x);
    }
  }

  lemma ReplacementsFit(a: seq<Symbol>, d: seq<real>, p: seq<Symbol>, rate: real, n: nat)
    requires |d| == |p| == |a| && n <= |a|
    ensures Fits(|a|, Replacements(a, d, p, rate, n))
  {
    var reps := Replacements(a, d, p, rate, n);
    forall r | r in reps
      ensures r.0 + |r.1| <= |a|
    {
    }
  }

  /** The mutated loci after the replacements of the first `n` loci. */
  function Redrawn(a: seq<Symbol>, d: seq<real>, p: seq<Symbol>, rate: real, n: nat, i: nat): Symbol
    requires |d| == |p| == |a| && n <= |a| && i < |a|
  {
    if i < n && d[i] < rate then p[i] else a[i]
  }

  /** Applying the replacements of the first `n` loci redraws exactly those
      loci. */
  lemma {:induction false} ReplacementsApply(a: seq<Symbol>, d: seq<real>, p: seq<Symbol>, rate: real, n: nat)
    requires |d| == |p| == |a| && n <= |a|
    ensures Fits(|a|, Replacements(a, d, p, rate, n))
    ensures forall i :: 0 <= i < |a| ==>
      OverwriteAll(a, Replacements(a, d, p, rate, n))[i] == Redrawn(a, d, p, rate, n, i)
  {
    ReplacementsFit(a, d, p, rate, n);
    if n > 0 {
      ReplacementsApply(a, d, p, rate, n - 1);
      ReplacementsStep(a, d, p, rate, n - 1, n);
    }
  }

  /** The step of `ReplacementsApply`: locus `m` is the only one whose
      redraw is added. */
  lemma ReplacementsStep(a: seq<Symbol>, d: seq<real>, p: seq<Symbol>, rate: real, m: nat, n: nat)
    requires |d| == |p| == |a| && n == m + 1 <= |a|
    requires Fits(|a|, Replacements(a, d, p, rate, m))
    requires forall i :: 0 <= i < |a| ==>
      OverwriteAll(a, Replacements(a, d, p, rate, m))[i] == Redrawn(a, d, p, rate, m, i)
    ensures Fits(|a|, Replacements(a, d, p, rate, n))
    ensures forall i :: 0 <= i < |a| ==>
      OverwriteAll(a, Replacements(a, d, p, rate, n))[i] == Redrawn(a, d, p, rate, n, i)
  {
    ReplacementsFit(a, d, p, rate, n);
    var prev := Replacements(a, d, p, rate, m);
    var reps := Replacements(a, d, p, rate, n);
    var before := OverwriteAll(a, prev);
    if d[m] < rate && p[m] != a[m] {
      assert reps == prev + [(m, [p[m]])];
      OverwriteAllSnoc(a, prev, (m, [p[m]]));
      var after := Overwrite(before, m, [p[m]]);
      assert OverwriteAll(a, reps) == after;
      forall i | 0 <= i < |a|
        ensures after[i] == Redrawn(a, d, p, rate, n, i)
      {
        if i != m {
          assert after[i] == before[i] == Redrawn(a, d, p, rate, m, i);
        }
      }
    } else {
      assert reps == prev;
      forall i | 0 <= i < |a|
        ensures before[i] == Redrawn(a, d, p, rate, n, i)
      {
        assert before[i] == Redrawn(a, d, p, rate, m, i);
      }
    }
  }

  /** The replacement list is empty exactly when no redraw changed a locus. */
  lemma {:induction false} ReplacementsEmpty(a: seq<Symbol>, d: seq<real>, p: seq<Symbol>, rate: real, n: nat)
    requires |d| == |p| == |a| && n <= |a|
    ensures (Replacements(a, d, p, rate, n) == []) <==>
      (forall i :: 0 <= i < n && d[i] < rate ==> p[i] == a[i])
  {
    if n > 0 {
      ReplacementsEmpty(a, d, p, rate, n - 1);
    }
  }

  /** The full replacement list derives the mutated loci, and is empty
      exactly when mutation changes nothing. */
  lemma ReplacementsMutate(a: seq<Symbol>, d: seq<real>, p: seq<Symbol>, rate: real)
    requires |d| == |p| == |a|
    ensures Fits(|a|, Replacements(a, d, p, rate, |a|))
    ensures OverwriteAll(a, Replacements(a, d, p, rate, |a|)) == MutatedAlleles(a, d, p, rate)
    ensures (Replacements(a, d, p, rate, |a|) == []) <==> MutatedAlleles(a, d, p, rate) == a
  {
    var reps := Replacements(a, d, p, rate, |a|);
    var mutated := MutatedAlleles(a, d, p, rate);
    ReplacementsApply(a, d, p, rate, |a|);
    ReplacementsEmpty(a, d, p, rate, |a|);
    forall k | 0 <= k < |a|
      ensures OverwriteAll(a, reps)[k] == mutated[k]
    {
      assert OverwriteAll(a, reps)[k] == Redrawn(a, d, p, rate, |a|, k);
    }
    if reps != [] {
      var k :| 0 <= k < |a| && d[k] < rate && p[k] != a[k];
      assert mutated[k] != a[k];
    }
  }

  /** Mutation keeps every locus legal for its position when the picks are:
      the tail stays terminal. */
  lemma MutatePreservesAlleles(cfg: Config, head: nat, a: seq<Symbol>, d: seq<real>, p: seq<Symbol>, rate: real)
    requires AllelesOk(cfg, head, a) && |d| == |p| == |a|
    requires forall i :: 0 <= i < |a| && d[i] < rate ==> cfg.Allowed(head, i, p[i])
    ensures AllelesOk(cfg, head, MutatedAlleles(a, d, p, rate))
  {
  }

  // ---------------------------------------------------------------------
  // Transposition

  /** The IS replacement as written,
      `source[start:end] + genes[target][offset:head-end+start]`; RIS writes
      the same with `offset` 0. */
  function TransposedRun(src: seq<Symbol>, tgt: seq<Symbol>, start: nat, length: nat, offset: nat, head: nat)
    : seq<Symbol>
    requires start < |src|
  {
    var end := RunEnd(|src|, start, length);
    src[start..end] + Slice(tgt, offset, head - end + start)
  }

  /** Length of the replacement as written, for a run of `L` loci: it fills
      exactly the head after `offset` only while `L <= head - offset`; a
      longer run reaches past the head, and past `head` the negative slice
      bound counts from the gene end and the replacement outgrows the gene. */
  lemma TransposedRunLength(src: seq<Symbol>, tgt: seq<Symbol>, start: nat, length: nat, offset: nat, head: nat)
    requires start < |src| == |tgt| && offset <= head <= |tgt|
    ensures var L := RunEnd(|src|, start, length) - start;
      |TransposedRun(src, tgt, start, length, offset, head)| ==
        if L <= head - offset then head - offset
        else if L <= head then L
        else |tgt| + head - offset
  {
  }

  /** While the run fits in the head after `offset`, the code as written
      computes the intended insertion. */
  lemma TransposedRunAgrees(src: seq<Symbol>, tgt: seq<Symbol>, start: nat, length: nat, offset: nat, head: nat)
    requires start < |src| && offset <= head <= |tgt|
    requires RunEnd(|src|, start, length) - start <= head - offset
    ensures TransposedRun(src, tgt, start, length, offset, head) ==
      Insert(src[start..RunEnd(|src|, start, length)], tgt, offset, head)
  {
    var end := RunEnd(|src|, start, length);
    var run := src[start..end];
    assert Slice(tgt, offset, head - end + start) == tgt[offset..head - |run|];
    assert (run + tgt[offset..head])[..head - offset] == run + tgt[offset..head - |run|];
  }

  /** One function, one terminal and head 2 give genes of 5 loci. */
  function SmallConfig(): Config
  {
    Config([Func(2, 0)], [Attr("x")])
  }

  /** IS as written with a run of 2 functions at offset 1 of a head of 2
      writes a function into the tail. */
  lemma TransposeIsOverrun()
    ensures var src := [Func(2, 0), Func(2, 0), Attr("x"), Attr("x"), Attr("x")];
      var tgt := [Func(2, 0), Attr("x"), Attr("x"), Attr("x"), Attr("x")];
      AllelesOk(SmallConfig(), 2, src) && AllelesOk(SmallConfig(), 2, tgt) &&
      TransposedRun(src, tgt, 0, 2, 1, 2) == [Func(2, 0), Func(2, 0)] &&
      !AllelesOk(SmallConfig(), 2, Overwrite(tgt, 1, TransposedRun(src, tgt, 0, 2, 1, 2)))
  {
    var src := [Func(2, 0), Func(2, 0), Attr("x"), Attr("x"), Attr("x")];
    var tgt := [Func(2, 0), Attr("x"), Attr("x"), Attr("x"), Attr("x")];
    assert SmallConfig().MaxArity() == 2 by {
      assert Arity(SmallConfig().functions[0]) == 2;
    }
    assert src[0..2] == [Func(2, 0), Func(2, 0)];
    var r := Overwrite(tgt, 1, TransposedRun(src, tgt, 0, 2, 1, 2));
    assert r[2] == Func(2, 0) && !(Func(2, 0) in SmallConfig().terminals);
  }

  /** RIS as written with a run of 3 loci into a head of 1 builds a
      replacement longer than the gene. */
  lemma TransposeRisOverrun()
    ensures var src := [Func(2, 0), Attr("x"), Attr("x")];
      var tgt := [Attr("x"), Attr("x"), Attr("x")];
      AllelesOk(SmallConfig(), 1, src) && AllelesOk(SmallConfig(), 1, tgt) &&
      |TransposedRun(src, tgt, 0, 3, 0, 1)| == 4 > |tgt|
  {
    assert SmallConfig().MaxArity() == 2 by {
      assert Arity(SmallConfig().functions[0]) == 2;
    }
  }

  predicate HasFunction(a: seq<Symbol>)
  {
    exists i :: 0 <= i < |a| && a[i].Func?
  }

  // ---------------------------------------------------------------------
  // Crossover

  /** One-point crossover of two genes at `index`:
      `g1.derive([(index, g2[index:])])`. */
  function CrossGene(a1: seq<Symbol>, a2: seq<Symbol>, index: nat): (r: seq<Symbol>)
    requires |a1| == |a2| && index <= |a1|
  {
    Overwrite(a1, index, a2[index..])
  }

  /** `g1.derive([(0, g2[:index])])`. */
  function CrossGenePrefix(a1: seq<Symbol>, a2: seq<Symbol>, index: nat): (r: seq<Symbol>)
    requires |a1| == |a2| && index <= |a1|
  {
    Overwrite(a1, 0, a2[..index])
  }

  /** Crossing two genes takes each locus from one of the two parents. */
  lemma CrossGeneLoci(a1: seq<Symbol>, a2: seq<Symbol>, index: nat)
    requires |a1| == |a2| && index <= |a1|
    ensures |CrossGene(a1, a2, index)| == |CrossGenePrefix(a1, a2, index)| == |a1|
    ensures forall k :: 0 <= k < |a1| ==>
      CrossGene(a1, a2, index)[k] == (if k < index then a1[k] else a2[k])
    ensures forall k :: 0 <= k < |a1| ==>
      CrossGenePrefix(a1, a2, index)[k] == (if k < index then a2[k] else a1[k])
  {
  }

  /** Both children keep every locus legal when both parents do. */
  lemma CrossGeneAlleles(cfg: Config, head: nat, a1: seq<Symbol>, a2: seq<Symbol>, index: nat)
    requires AllelesOk(cfg, head, a1) && AllelesOk(cfg, head, a2) && index <= |a1|
    ensures AllelesOk(cfg, head, CrossGene(a1, a2, index))
    ensures AllelesOk(cfg, head, CrossGenePrefix(a1, a2, index))
  {
    CrossGeneLoci(a1, a2, index);
  }

  /** Gene lists of equal shape. */
  predicate SameShape(p1: seq<seq<Symbol>>, p2: seq<seq<Symbol>>)
  {
    |p1| == |p2| && forall g :: 0 <= g < |p1| ==> |p1[g]| == |p2[g]|
  }

  /** Genes strictly between `lo` and `hi` exchanged:
      `g1[lo+1:hi], g2[lo+1:hi] = g2[lo+1:hi], g1[lo+1:hi]`. */
  function SwapGenes(p1: seq<seq<Symbol>>, p2: seq<seq<Symbol>>, lo: nat, hi: nat)
    : (r: (seq<seq<Symbol>>, seq<seq<Symbol>>))
    requires |p1| == |p2|
    ensures |r.0| == |r.1| == |p1|
    ensures forall g :: 0 <= g < |p1| ==>
      r.0[g] == (if lo < g < hi then p2[g] else p1[g]) &&
      r.1[g] == (if lo < g < hi then p1[g] else p2[g])
  {
    (seq(|p1|, g requires 0 <= g < |p1| => if lo < g < hi then p2[g] else p1[g]),
     seq(|p1|, g requires 0 <= g < |p1| => if lo < g < hi then p1[g] else p2[g]))
  }

  /** Exchanging the same slots twice gives both lists back. */
  lemma SwapGenesTwice(p1: seq<seq<Symbol>>, p2: seq<seq<Symbol>>, lo: nat, hi: nat)
    requires |p1| == |p2|
    ensures SwapGenes(SwapGenes(p1, p2, lo, hi).0, SwapGenes(p1, p2, lo, hi).1, lo, hi) == (p1, p2)
  {
    var m := SwapGenes(p1, p2, lo, hi);
    var r := SwapGenes(m.0, m.1, lo, hi);
    assert r.0 == p1 && r.1 == p2;
  }

  /** Gene `g` of both lists crossed from locus `a` on. */
  function CrossPairFrom(p: (seq<seq<Symbol>>, seq<seq<Symbol>>), g: nat, a: nat)
    : (r: (seq<seq<Symbol>>, seq<seq<Symbol>>))
    requires SameShape(p.0, p.1) && g < |p.0| && a <= |p.0[g]|
    ensures SameShape(r.0, r.1) && |r.0| == |p.0|
    ensures forall h :: 0 <= h < |p.0| ==> |r.0[h]| == |p.0[h]|
  {
    (p.0[g := CrossGene(p.0[g], p.1[g], a)], p.1[g := CrossGene(p.1[g], p.0[g], a)])
  }

  /** Gene `g` of both lists crossed before locus `a`. */
  function CrossPairBefore(p: (seq<seq<Symbol>>, seq<seq<Symbol>>), g: nat, a: nat)
    : (r: (seq<seq<Symbol>>, seq<seq<Symbol>>))
    requires SameShape(p.0, p.1) && g < |p.0| && a <= |p.0[g]|
    ensures SameShape(r.0, r.1) && |r.0| == |p.0|
    ensures forall h :: 0 <= h < |p.0| ==> |r.0[h]| == |p.0[h]|
  {
    (p.0[g := CrossGenePrefix(p.0[g], p.1[g], a)], p.1[g := CrossGenePrefix(p.1[g], p.0[g], a)])
  }

  /** The loci of the two-point crossover as written, with the two points
      already split by `divmod` into gene `ga`, locus `aa` and gene `gb`,
      locus `ab` (`ga <= gb`): the genes strictly between are exchanged, the
      first boundary gene is crossed from `aa` on, then the second boundary
      gene is crossed before `ab` (when both points fall in one gene, the
      second step works on the genes the first step produced). */
  function TwoPoint(p1: seq<seq<Symbol>>, p2: seq<seq<Symbol>>, ga: nat, aa: nat, gb: nat, ab: nat)
    : (r: (seq<seq<Symbol>>, seq<seq<Symbol>>))
    requires SameShape(p1, p2) && ga <= gb < |p1|
    requires aa <= |p1[ga]| && ab <= |p1[gb]|
    ensures SameShape(r.0, r.1) && |r.0| == |p1|
    ensures forall g :: 0 <= g < |p1| ==> |r.0[g]| == |p1[g]|
  {
    var m := SwapGenes(p1, p2, ga, gb);
    CrossPairBefore(CrossPairFrom(m, ga, aa), gb, ab)
  }

  /** Where the two-point crossover as written exchanges loci, measured
      lexicographically on `(gene, locus)`.  With the points in different
      genes a child takes the other parent exactly inside
      `[(ga, aa), (gb, ab))`.  With both points in one gene the second step
      undoes part of the first: the children exchange the loci of that gene
      OUTSIDE `[aa, ab)` and keep every other gene. */
  lemma TwoPointLoci(p1: seq<seq<Symbol>>, p2: seq<seq<Symbol>>, ga: nat, aa: nat, gb: nat, ab: nat,
                     g: nat, k: nat)
    requires SameShape(p1, p2) && ga <= gb < |p1|
    requires aa <= |p1[ga]| && ab <= |p1[gb]|
    requires ga == gb ==> aa < ab
    requires g < |p1| && k < |p1[g]|
    ensures var r := TwoPoint(p1, p2, ga, aa, gb, ab);
      var inside := (ga < g || (ga == g && aa <= k)) && (g < gb || (g == gb && k < ab));
      var swapped := if ga == gb then g == ga && !inside else inside;
      r.0[g][k] == (if swapped then p2[g][k] else p1[g][k]) &&
      r.1[g][k] == (if swapped then p1[g][k] else p2[g][k])
  {
    var m1 := SwapGenes(p1, p2, ga, gb).0;
    var m2 := SwapGenes(p1, p2, ga, gb).1;
    CrossGeneLoci(m1[ga], m2[ga], aa);
    CrossGeneLoci(m2[ga], m1[ga], aa);
    var s1 := m1[ga := CrossGene(m1[ga], m2[ga], aa)];
    var s2 := m2[ga := CrossGene(m2[ga], m1[ga], aa)];
    CrossGeneLoci(s1[gb], s2[gb], ab);
    CrossGeneLoci(s2[gb], s1[gb], ab);
    var r := TwoPoint(p1, p2, ga, aa, gb, ab);
    assert r == (s1[gb := CrossGenePrefix(s1[gb], s2[gb], ab)], s2[gb := CrossGenePrefix(s2[gb], s1[gb], ab)]);
    if g == gb {
      if ga == gb {
        assert s1[gb][k] == (if k < aa then p1[g][k] else p2[g][k]);
        assert s2[gb][k] == (if k < aa then p2[g][k] else p1[g][k]);
      } else {
        assert s1[gb] == p1[gb] && s2[gb] == p2[gb];
      }
    } else if g == ga {
      assert r.0[g] == s1[g] && r.1[g] == s2[g];
    } else {
      assert r.0[g] == m1[g] && r.1[g] == m2[g];
    }
  }

  /** The two-point crossover the code evidently intends (its own comment
      plans a single derivation for one gene): when both points fall in one
      gene, the loci `[aa, ab)` of that gene are exchanged in one step. */
  function TwoPointExchange(p1: seq<seq<Symbol>>, p2: seq<seq<Symbol>>, ga: nat, aa: nat, gb: nat, ab: nat)
    : (r: (seq<seq<Symbol>>, seq<seq<Symbol>>))
    requires SameShape(p1, p2) && ga <= gb < |p1|
    requires aa <= |p1[ga]| && ab <= |p1[gb]|
    requires ga == gb ==> aa <= ab
    ensures SameShape(r.0, r.1) && |r.0| == |p1|
    ensures forall g :: 0 <= g < |p1| ==> |r.0[g]| == |p1[g]|
  {
    if ga == gb then
      (p1[ga := Overwrite(p1[ga], aa, p2[ga][aa..ab])], p2[ga := Overwrite(p2[ga], aa, p1[ga][aa..ab])])
    else
      TwoPoint(p1, p2, ga, aa, gb, ab)
  }

  /** The intended crossover exchanges exactly the loci inside
      `[(ga, aa), (gb, ab))`. */
  lemma TwoPointExchangeLoci(p1: seq<seq<Symbol>>, p2: seq<seq<Symbol>>, ga: nat, aa: nat, gb: nat, ab: nat,
                             g: nat, k: nat)
    requires SameShape(p1, p2) && ga <= gb < |p1|
    requires aa <= |p1[ga]| && ab <= |p1[gb]|
    requires ga == gb ==> aa < ab
    requires g < |p1| && k < |p1[g]|
    ensures var r := TwoPointExchange(p1, p2, ga, aa, gb, ab);
      var inside := (ga < g || (ga == g && aa <= k)) && (g < gb || (g == gb && k < ab));
      r.0[g][k] == (if inside then p2[g][k] else p1[g][k]) &&
      r.1[g][k] == (if inside then p1[g][k] else p2[g][k])
  {
    if ga != gb {
      TwoPointLoci(p1, p2, ga, aa, gb, ab, g, k);
    }
  }

  /** Both points at loci 1 and 2 of the first of two genes of 3 loci: the
      code as written gives child 1 the second parent's loci 0 and 2 of that
      gene, where the intended crossover gives it the second parent's locus 1. */
  lemma TwoPointSameGeneExample()
    ensures var x, y := Attr("x"), Attr("y");
      var p1 := [[x, x, x], [x, x, x]];
      var p2 := [[y, y, y], [y, y, y]];
      TwoPoint(p1, p2, 0, 1, 0, 2).0 == [[y, x, y], [x, x, x]] &&
      TwoPointExchange(p1, p2, 0, 1, 0, 2).0 == [[x, y, x], [x, x, x]]
  {
    var x, y := Attr("x"), Attr("y");
    var p1 := [[x, x, x], [x, x, x]];
    var p2 := [[y, y, y], [y, y, y]];
    var r := TwoPoint(p1, p2, 0, 1, 0, 2).0;
    forall k | 0 <= k < 3
      ensures r[0][k] == [y, x, y][k] && r[1][k] == x
    {
      TwoPointLoci(p1, p2, 0, 1, 0, 2, 0, k);
      TwoPointLoci(p1, p2, 0, 1, 0, 2, 1, k);
    }
    assert r[0] == [y, x, y] && r[1] == [x, x, x];
    var e := TwoPointExchange(p1, p2, 0, 1, 0, 2).0;
    forall k | 0 <= k < 3
      ensures e[0][k] == [x, y, x][k] && e[1][k] == x
    {
      TwoPointExchangeLoci(p1, p2, 0, 1, 0, 2, 0, k);
      TwoPointExchangeLoci(p1, p2, 0, 1, 0, 2, 1, k);
    }
    assert e[0] == [x, y, x] && e[1] == [x, x, x];
  }

  /** Parents whose genes all have `n` loci. */
  predicate Uniform(p: seq<seq<Symbol>>, n: nat)
  {
    forall h :: 0 <= h < |p| ==> |p[h]| == n
  }

  /** `crossover_two_point` on the flattened positions `lo < hi` of parents
      whose genes all have `n` loci: the points are `divmod(lo, n)` and
      `divmod(hi, n)`, exchanged as intended. */
  function TwoPointAt(p1: seq<seq<Symbol>>, p2: seq<seq<Symbol>>, n: nat, lo: nat, hi: nat)
    : (r: (seq<seq<Symbol>>, seq<seq<Symbol>>))
    requires SameShape(p1, p2) && n >= 1 && Uniform(p1, n) && lo < hi < Flat(|p1|, 0, n)
    ensures SameShape(r.0, r.1) && |r.0| == |p1| && Uniform(r.0, n)
  {
    DivModBelow(hi, n, |p1|);
    DivModOrdered(lo, hi, n);
    var (ga, aa) := DivMod(lo, n);
    var (gb, ab) := DivMod(hi, n);
    assert |p1[ga]| == n && |p1[gb]| == n;
    TwoPointExchange(p1, p2, ga, aa, gb, ab)
  }

  /** `TwoPointExchangeLoci` for parents of uniform gene length. */
  lemma ExchangeLociAt(p1: seq<seq<Symbol>>, p2: seq<seq<Symbol>>, n: nat, ga: nat, aa: nat, gb: nat, ab: nat,
                        g: nat, k: nat)
    requires SameShape(p1, p2) && Uniform(p1, n)
    requires ga <= gb < |p1| && aa < n && ab < n && (ga == gb ==> aa < ab)
    requires g < |p1| && k < n
    ensures var r := TwoPointExchange(p1, p2, ga, aa, gb, ab);
      var inside := (ga < g || (ga == g && aa <= k)) && (g < gb || (g == gb && k < ab));
      r.0[g][k] == (if inside then p2[g][k] else p1[g][k]) &&
      r.1[g][k] == (if inside then p1[g][k] else p2[g][k])
  {
    assert |p1[ga]| == n && |p1[gb]| == n && |p1[g]| == n;
    TwoPointExchangeLoci(p1, p2, ga, aa, gb, ab, g, k);
  }

  /** On flattened positions a child takes the other parent exactly on
      `[lo, hi)`, locus `k` of gene `g` sitting at position
      `Flat(g, k, n) == g * n + k`. */
  lemma TwoPointFlat(p1: seq<seq<Symbol>>, p2: seq<seq<Symbol>>, n: nat, lo: nat, hi: nat, g: nat, k: nat)
    requires SameShape(p1, p2) && n >= 1 && Uniform(p1, n) && lo < hi < Flat(|p1|, 0, n)
    requires g < |p1| && k < n
    ensures var r := TwoPointAt(p1, p2, n, lo, hi);
      r.0[g][k] == (if lo <= Flat(g, k, n) < hi then p2[g][k] else p1[g][k]) &&
      r.1[g][k] == (if lo <= Flat(g, k, n) < hi then p1[g][k] else p2[g][k])
  {
    DivModBelow(hi, n, |p1|);
    DivModOrdered(lo, hi, n);
    var (ga, aa) := DivMod(lo, n);
    var (gb, ab) := DivMod(hi, n);
    FlatBetween(lo, hi, n, g, k);
    ExchangeLociAt(p1, p2, n, ga, aa, gb, ab, g, k);
  }

  // ---------------------------------------------------------------------
  // Gene derivation at the chromosome's shape

  /** Exchanging the loci `[lo, hi)` of two legal genes keeps both legal. */
  lemma SegmentAlleles(cfg: Config, head: nat, a1: seq<Symbol>, a2: seq<Symbol>, lo: nat, hi: nat)
    requires AllelesOk(cfg, head, a1) && AllelesOk(cfg, head, a2) && lo <= hi <= |a1|
    ensures AllelesOk(cfg, head, Overwrite(a1, lo, a2[lo..hi]))
  {
    var r := Overwrite(a1, lo, a2[lo..hi]);
    forall k | 0 <= k < |r|
      ensures cfg.Allowed(head, k, r[k])
    {
      if lo <= k < hi {
        assert r[k] == a2[k];
      }
    }
  }

  /** Every gene of a list has the chromosome class's shape. */
  ghost predicate GenesOk(cfg: Config, head: nat, gs: seq<KarvaGene>)
  {
    forall g :: 0 <= g < |gs| ==> GeneOk(cfg, head, gs[g])
  }

  /** `gene.derive([(i, run)])` for a gene of the chromosome's shape. */
  method DeriveOne(cfg: Config, head: nat, x: KarvaGene, i: nat, run: seq<Symbol>) returns (y: KarvaGene)
    requires cfg.Ok() && GeneOk(cfg, head, x) && i + |run| <= |x.alleles|
    requires AllelesOk(cfg, head, Overwrite(x.alleles, i, run))
    ensures fresh(y) && GeneOk(cfg, head, y) && y.alleles == Overwrite(x.alleles, i, run)
  {
    AllelesSized(cfg, head, Overwrite(x.alleles, i, run));
    assert Fits(|x.alleles|, [(i, run)]);
    assert [(i, run)][1..] == [];
    y := x.Derive([(i, run)], cfg.MaxArity());
  }

  /** The locus loop of `mutate`: for each locus whose draw is below the
      rate, a replacement when the picked allele differs. */
  method CollectReplacements(a: seq<Symbol>, d: seq<real>, p: seq<Symbol>, rate: real)
    returns (reps: seq<(nat, seq<Symbol>)>)
    requires |d| == |p| == |a|
    ensures reps == Replacements(a, d, p, rate, |a|)
  {
    reps := [];
    var i := 0;
    while i < |a|
      invariant 0 <= i <= |a|
      invariant reps == Replacements(a, d, p, rate, i)
    {
      if d[i] < rate {
        var allele := p[i];
        if allele != a[i] {
          reps := reps + [(i, [allele])];
        }
      }
      i := i + 1;
    }
  }

  /** `mutate` for one gene: the replacements collected for it and the gene
      derived from them, or the gene itself when there are none. */
  method MutateGene(cfg: Config, head: nat, x: KarvaGene, d: seq<real>, p: seq<Symbol>, rate: real)
    returns (y: KarvaGene)
    requires cfg.Ok() && GeneOk(cfg, head, x)
    requires |d| == |p| == |x.alleles|
    requires forall i :: 0 <= i < |p| && d[i] < rate ==> cfg.Allowed(head, i, p[i])
    ensures GeneOk(cfg, head, y) && y.alleles == MutatedAlleles(x.alleles, d, p, rate)
    ensures (y == x) <==> MutatedAlleles(x.alleles, d, p, rate) == x.alleles
    ensures y != x ==> fresh(y)
  {
    ghost var a := x.alleles;
    var reps := CollectReplacements(x.alleles, d, p, rate);
    ReplacementsMutate(a, d, p, rate);
    MutatePreservesAlleles(cfg, head, a, d, p, rate);
    if reps != [] {
      AllelesSized(cfg, head, MutatedAlleles(a, d, p, rate));
      y := x.Derive(reps, cfg.MaxArity());
    } else {
      y := x;
    }
  }

  /** Writing a gene of the class's shape into a list of such genes. */
  lemma AfterUpdate(cfg: Config, head: nat, gs: seq<KarvaGene>, g: nat, x: KarvaGene)
    requires GenesOk(cfg, head, gs) && g < |gs| && GeneOk(cfg, head, x)
    ensures GenesOk(cfg, head, gs[g := x])
  {
  }

  /** The gene loop of `mutate`: every gene passed through `MutateGene`.
      The list is the same exactly when no gene gained a new allele. */
  method MutateGenes(cfg: Config, head: nat, genes: seq<KarvaGene>, draws: seq<seq<real>>,
                     picks: seq<seq<Symbol>>, rate: real)
    returns (gs: seq<KarvaGene>)
    requires cfg.Ok() && GenesOk(cfg, head, genes)
    requires |draws| == |picks| == |genes|
    requires forall g :: 0 <= g < |genes| ==>
      |draws[g]| == |picks[g]| == |genes[g].alleles|
    requires forall g, i :: 0 <= g < |genes| && 0 <= i < |picks[g]| && draws[g][i] < rate ==>
      cfg.Allowed(head, i, picks[g][i])
    ensures GenesOk(cfg, head, gs) && |gs| == |genes|
    ensures forall g :: 0 <= g < |genes| ==>
      gs[g].alleles == MutatedAlleles(genes[g].alleles, draws[g], picks[g], rate)
    ensures forall g :: 0 <= g < |genes| ==>
      ((gs[g] == genes[g]) <==> (MutatedAlleles(genes[g].alleles, draws[g], picks[g], rate) == genes[g].alleles))
    ensures (gs == genes) <==>
      forall g :: 0 <= g < |genes| ==> MutatedAlleles(genes[g].alleles, draws[g], picks[g], rate) == genes[g].alleles
  {
    gs := genes;
    var gi := 0;
    while gi < |genes|
      invariant 0 <= gi <= |genes| && |gs| == |genes|
      invariant GenesOk(cfg, head, gs)
      invariant forall g :: 0 <= g < gi ==>
        gs[g].alleles == MutatedAlleles(genes[g].alleles, draws[g], picks[g], rate)
      invariant forall g :: 0 <= g < gi ==>
        ((gs[g] == genes[g]) <==> (MutatedAlleles(genes[g].alleles, draws[g], picks[g], rate) == genes[g].alleles))
      invariant forall g :: gi <= g < |genes| ==> gs[g] == genes[g]
    {
      assert GeneOk(cfg, head, genes[gi]);
      var x := MutateGene(cfg, head, genes[gi], draws[gi], picks[gi], rate);
      AfterUpdate(cfg, head, gs, gi, x);
      gs := gs[gi := x];
      gi := gi + 1;
    }
    if gs != genes {
      var g :| 0 <= g < |genes| && gs[g] != genes[g];
    }
  }

  /** The transposition step shared by IS and RIS: the run of `length` loci
      from position `start` of gene `source`, truncated at the gene end, is
      inserted into the head of gene `target` at `offset`; every other gene
      object is kept. */
  method InsertRun(cfg: Config, head: nat, genes: seq<KarvaGene>, source: nat, target: nat,
                   start: nat, length: nat, offset: nat)
    returns (gs: seq<KarvaGene>)
    requires cfg.Ok() && GenesOk(cfg, head, genes)
    requires source < |genes| && target < |genes| && start < |genes[source].alleles|
    requires offset <= head
    ensures GenesOk(cfg, head, gs) && |gs| == |genes| && fresh(gs[target])
    ensures forall g :: 0 <= g < |genes| && g != target ==> gs[g] == genes[g]
    ensures head <= |genes[target].alleles|
    ensures gs[target].alleles == Overwrite(genes[target].alleles, offset,
      Insert(genes[source].alleles[start..RunEnd(|genes[source].alleles|, start, length)],
             genes[target].alleles, offset, head))
  {
    var src, tgt := genes[source], genes[target];
    assert GeneOk(cfg, head, src) && GeneOk(cfg, head, tgt);
    var end := RunEnd(|src.alleles|, start, length);
    var run := src.alleles[start..end];
    RunSymbols(cfg, head, src.alleles, start, end);
    InsertAlleles(cfg, head, run, tgt.alleles, offset);
    var replacement := (run + tgt.alleles[offset..head])[..head - offset];
    var x := DeriveOne(cfg, head, tgt, offset, replacement);
    gs := genes[target := x];
  }

  /** The RIS step: the run starts at a function and is inserted at the
      root, which then holds that function. */
  method RootInsert(cfg: Config, head: nat, genes: seq<KarvaGene>, source: nat, target: nat,
                    start: nat, length: nat)
    returns (gs: seq<KarvaGene>)
    requires cfg.Ok() && GenesOk(cfg, head, genes)
    requires source < |genes| && target < |genes|
    requires start < |genes[source].alleles| && genes[source].alleles[start].Func?
    ensures GenesOk(cfg, head, gs) && |gs| == |genes| && fresh(gs[target])
    ensures forall g :: 0 <= g < |genes| && g != target ==> gs[g] == genes[g]
    ensures head <= |genes[target].alleles|
    ensures gs[target].alleles == Overwrite(genes[target].alleles, 0,
      Insert(genes[source].alleles[start..RunEnd(|genes[source].alleles|, start, length)],
             genes[target].alleles, 0, head))
    ensures length >= 1 ==> gs[target].alleles[0] == genes[source].alleles[start]
  {
    assert GeneOk(cfg, head, genes[source]);
    FunctionInHead(cfg, head, genes[source].alleles, start);
    gs := InsertRun(cfg, head, genes, source, target, start, length, 0);
    if length >= 1 {
      var src := genes[source].alleles;
      InsertRoot(src[start..RunEnd(|src|, start, length)], genes[target].alleles, head);
    }
  }

  /** Which gene objects the two-point children hold, for points in genes
      `ga <= gb`: the slots strictly between them hold the other parent's
      objects, the slots outside keep their own, and only the two point
      genes are replaced. */
  ghost predicate TwoPointObjects(g1: seq<KarvaGene>, g2: seq<KarvaGene>, h1: seq<KarvaGene>, h2: seq<KarvaGene>,
                                  ga: nat, gb: nat)
  {
    ga <= gb < |g1| && |g2| == |h1| == |h2| == |g1| &&
    (forall g :: 0 <= g < |g1| && (g < ga || gb < g) ==> h1[g] == g1[g] && h2[g] == g2[g]) &&
    (forall g :: ga < g < gb ==> h1[g] == g2[g] && h2[g] == g1[g])
  }

  /** The two-point exchange between two gene lists of the class's shape at
      the flattened positions `lo < hi`. */
  method TwoPointGenes(cfg: Config, head: nat, g1: seq<KarvaGene>, g2: seq<KarvaGene>, lo: nat, hi: nat)
    returns (h1: seq<KarvaGene>, h2: seq<KarvaGene>)
    requires cfg.Ok() && GenesOk(cfg, head, g1) && GenesOk(cfg, head, g2) && |g1| == |g2| >= 1
    requires lo < hi < Flat(|g1|, 0, GeneLength(head, cfg.MaxArity()))
    ensures GenesOk(cfg, head, h1) && GenesOk(cfg, head, h2) && |h1| == |h2| == |g1|
    ensures var n := GeneLength(head, cfg.MaxArity());
      SameShape(Alleles(g1), Alleles(g2)) && Uniform(Alleles(g1), n) &&
      (Alleles(h1), Alleles(h2)) == TwoPointAt(Alleles(g1), Alleles(g2), n, lo, hi)
    ensures var n := GeneLength(head, cfg.MaxArity());
      n >= 1 && TwoPointObjects(g1, g2, h1, h2, DivMod(lo, n).0, DivMod(hi, n).0) &&
      fresh(h1[DivMod(lo, n).0]) && fresh(h2[DivMod(lo, n).0]) &&
      fresh(h1[DivMod(hi, n).0]) && fresh(h2[DivMod(hi, n).0])
    ensures h1 != g1 && h2 != g2
  {
    var n := GeneLength(head, cfg.MaxArity());
    GenesUniform(cfg, head, g1);
    DivModBelow(hi, n, |g1|);
    DivModOrdered(lo, hi, n);
    var (ga, aa) := DivMod(lo, n);
    var (gb, ab) := DivMod(hi, n);
    assert GeneOk(cfg, head, g1[gb]);
    if ga == gb {
      h1, h2 := ExchangeSegment(cfg, head, g1, g2, ga, aa, ab);
    } else {
      h1, h2 := CrossBetween(cfg, head, g1, g2, ga, aa, gb, ab);
    }
  }

  /** Every gene of the class's shape has the generated length. */
  lemma GenesUniform(cfg: Config, head: nat, gs: seq<KarvaGene>)
    requires GenesOk(cfg, head, gs)
    ensures Uniform(Alleles(gs), GeneLength(head, cfg.MaxArity()))
  {
    forall h | 0 <= h < |gs|
      ensures |gs[h].alleles| == GeneLength(head, cfg.MaxArity())
    {
      assert GeneOk(cfg, head, gs[h]);
    }
  }

  /** Genes of the class's shape pair up locus by locus. */
  lemma GenesShape(cfg: Config, head: nat, g1: seq<KarvaGene>, g2: seq<KarvaGene>)
    requires GenesOk(cfg, head, g1) && GenesOk(cfg, head, g2) && |g1| == |g2|
    ensures SameShape(Alleles(g1), Alleles(g2))
  {
    forall g | 0 <= g < |g1|
      ensures |g1[g].alleles| == |g2[g].alleles|
    {
      assert GeneOk(cfg, head, g1[g]) && GeneOk(cfg, head, g2[g]);
    }
  }

  /** The two-point exchange inside one gene `ga`: one derivation per
      child, writing the other parent's loci `[aa, ab)`. */
  method ExchangeSegment(cfg: Config, head: nat, g1: seq<KarvaGene>, g2: seq<KarvaGene>, ga: nat, aa: nat, ab: nat)
    returns (h1: seq<KarvaGene>, h2: seq<KarvaGene>)
    requires cfg.Ok() && GenesOk(cfg, head, g1) && GenesOk(cfg, head, g2) && |g1| == |g2|
    requires ga < |g1| && aa < ab <= |g1[ga].alleles|
    ensures GenesOk(cfg, head, h1) && GenesOk(cfg, head, h2)
    ensures SameShape(Alleles(g1), Alleles(g2))
    ensures (Alleles(h1), Alleles(h2)) == TwoPointExchange(Alleles(g1), Alleles(g2), ga, aa, ga, ab)
    ensures |h1| == |h2| == |g1| && h1 == g1[ga := h1[ga]] && h2 == g2[ga := h2[ga]]
    ensures fresh(h1[ga]) && fresh(h2[ga])
    ensures h1 != g1 && h2 != g2
  {
    GenesShape(cfg, head, g1, g2);
    assert GeneOk(cfg, head, g1[ga]) && GeneOk(cfg, head, g2[ga]);
    var b1, b2 := g1[ga].alleles, g2[ga].alleles;
    SegmentAlleles(cfg, head, b1, b2, aa, ab);
    SegmentAlleles(cfg, head, b2, b1, aa, ab);
    var x1 := DeriveOne(cfg, head, g1[ga], aa, b2[aa..ab]);
    var x2 := DeriveOne(cfg, head, g2[ga], aa, b1[aa..ab]);
    h1, h2 := g1[ga := x1], g2[ga := x2];
    assert h1[ga] != g1[ga] && h2[ga] != g2[ga];
    assert Alleles(h1) == Alleles(g1)[ga := x1.alleles];
    assert Alleles(h2) == Alleles(g2)[ga := x2.alleles];
  }

  /** Pointwise view of a slice exchange `a[lo:hi] = b[lo:hi]`. */
  lemma SpliceLoci<T>(a: seq<T>, b: seq<T>, lo: nat, hi: nat)
    requires lo <= hi <= |a| == |b|
    ensures |a[..lo] + b[lo..hi] + a[hi..]| == |a|
    ensures forall g :: 0 <= g < |a| ==> (a[..lo] + b[lo..hi] + a[hi..])[g] == if lo <= g < hi then b[g] else a[g]
  {
  }

  /** `g1[lo+1:hi], g2[lo+1:hi] = g2[lo+1:hi], g1[lo+1:hi]` when the genes
      are more than one apart. */
  method SwapMiddle(cfg: Config, head: nat, g1: seq<KarvaGene>, g2: seq<KarvaGene>, lo: nat, hi: nat)
    returns (m1: seq<KarvaGene>, m2: seq<KarvaGene>)
    requires GenesOk(cfg, head, g1) && GenesOk(cfg, head, g2) && |g1| == |g2| && lo < hi <= |g1|
    ensures GenesOk(cfg, head, m1) && GenesOk(cfg, head, m2) && |m1| == |m2| == |g1|
    ensures (Alleles(m1), Alleles(m2)) == SwapGenes(Alleles(g1), Alleles(g2), lo, hi)
    ensures forall g :: 0 <= g < |g1| ==>
      m1[g] == (if lo < g < hi then g2[g] else g1[g]) && m2[g] == (if lo < g < hi then g1[g] else g2[g])
  {
    m1, m2 := g1, g2;
    if hi - lo > 1 {
      var start := lo + 1;
      SpliceLoci(g1, g2, start, hi);
      SpliceLoci(g2, g1, start, hi);
      m1 := g1[..start] + g2[start..hi] + g1[hi..];
      m2 := g2[..start] + g1[start..hi] + g2[hi..];
    }
    forall g | 0 <= g < |g1|
      ensures GeneOk(cfg, head, m1[g]) && GeneOk(cfg, head, m2[g])
      ensures m1[g].alleles == SwapGenes(Alleles(g1), Alleles(g2), lo, hi).0[g]
      ensures m2[g].alleles == SwapGenes(Alleles(g1), Alleles(g2), lo, hi).1[g]
    {
      assert GeneOk(cfg, head, g1[g]) && GeneOk(cfg, head, g2[g]);
    }
    assert Alleles(m1) == SwapGenes(Alleles(g1), Alleles(g2), lo, hi).0;
    assert Alleles(m2) == SwapGenes(Alleles(g1), Alleles(g2), lo, hi).1;
  }

  /** Gene `g` of both lists crossed from locus `a` on:
      `g1[g].derive([(a, g2[g][a:])])` and the mirror. */
  method CrossFrom(cfg: Config, head: nat, g1: seq<KarvaGene>, g2: seq<KarvaGene>, g: nat, a: nat)
    returns (h1: seq<KarvaGene>, h2: seq<KarvaGene>)
    requires cfg.Ok() && GenesOk(cfg, head, g1) && GenesOk(cfg, head, g2) && |g1| == |g2|
    requires g < |g1| && a <= |g1[g].alleles|
    ensures GenesOk(cfg, head, h1) && GenesOk(cfg, head, h2) && |h1| == |h2| == |g1|
    ensures SameShape(Alleles(g1), Alleles(g2))
    ensures (Alleles(h1), Alleles(h2)) == CrossPairFrom((Alleles(g1), Alleles(g2)), g, a)
    ensures h1 == g1[g := h1[g]] && h2 == g2[g := h2[g]] && fresh(h1[g]) && fresh(h2[g])
  {
    GenesShape(cfg, head, g1, g2);
    assert GeneOk(cfg, head, g1[g]) && GeneOk(cfg, head, g2[g]);
    var b1, b2 := g1[g].alleles, g2[g].alleles;
    CrossGeneAlleles(cfg, head, b1, b2, a);
    CrossGeneAlleles(cfg, head, b2, b1, a);
    var x1 := DeriveOne(cfg, head, g1[g], a, b2[a..]);
    var x2 := DeriveOne(cfg, head, g2[g], a, b1[a..]);
    h1, h2 := g1[g := x1], g2[g := x2];
    assert Alleles(h1) == Alleles(g1)[g := x1.alleles];
    assert Alleles(h2) == Alleles(g2)[g := x2.alleles];
  }

  /** Gene `g` of both lists crossed before locus `a`:
      `g1[g].derive([(0, g2[g][:a])])` and the mirror. */
  method CrossBefore(cfg: Config, head: nat, g1: seq<KarvaGene>, g2: seq<KarvaGene>, g: nat, a: nat)
    returns (h1: seq<KarvaGene>, h2: seq<KarvaGene>)
    requires cfg.Ok() && GenesOk(cfg, head, g1) && GenesOk(cfg, head, g2) && |g1| == |g2|
    requires g < |g1| && a <= |g1[g].alleles|
    ensures GenesOk(cfg, head, h1) && GenesOk(cfg, head, h2) && |h1| == |h2| == |g1|
    ensures SameShape(Alleles(g1), Alleles(g2))
    ensures (Alleles(h1), Alleles(h2)) == CrossPairBefore((Alleles(g1), Alleles(g2)), g, a)
    ensures h1 == g1[g := h1[g]] && h2 == g2[g := h2[g]] && fresh(h1[g]) && fresh(h2[g])
  {
    GenesShape(cfg, head, g1, g2);
    assert GeneOk(cfg, head, g1[g]) && GeneOk(cfg, head, g2[g]);
    var b1, b2 := g1[g].alleles, g2[g].alleles;
    CrossGeneAlleles(cfg, head, b1, b2, a);
    CrossGeneAlleles(cfg, head, b2, b1, a);
    var x1 := DeriveOne(cfg, head, g1[g], 0, b2[..a]);
    var x2 := DeriveOne(cfg, head, g2[g], 0, b1[..a]);
    h1, h2 := g1[g := x1], g2[g := x2];
    assert Alleles(h1) == Alleles(g1)[g := x1.alleles];
    assert Alleles(h2) == Alleles(g2)[g := x2.alleles];
  }

  /** The two-point crossover as written, for points in genes `ga < gb`. */
  method CrossBetween(cfg: Config, head: nat, g1: seq<KarvaGene>, g2: seq<KarvaGene>,
                      ga: nat, aa: nat, gb: nat, ab: nat)
    returns (h1: seq<KarvaGene>, h2: seq<KarvaGene>)
    requires cfg.Ok() && GenesOk(cfg, head, g1) && GenesOk(cfg, head, g2) && |g1| == |g2|
    requires ga < gb < |g1| && aa <= |g1[ga].alleles| && ab <= |g1[gb].alleles|
    ensures GenesOk(cfg, head, h1) && GenesOk(cfg, head, h2)
    ensures SameShape(Alleles(g1), Alleles(g2))
    ensures (Alleles(h1), Alleles(h2)) == TwoPoint(Alleles(g1), Alleles(g2), ga, aa, gb, ab)
    ensures TwoPointObjects(g1, g2, h1, h2, ga, gb)
    ensures fresh(h1[ga]) && fresh(h2[ga]) && fresh(h1[gb]) && fresh(h2[gb])
    ensures h1 != g1 && h2 != g2
  {
    GenesShape(cfg, head, g1, g2);
    var m1, m2 := SwapMiddle(cfg, head, g1, g2, ga, gb);
    var s1, s2 := CrossFrom(cfg, head, m1, m2, ga, aa);
    h1, h2 := CrossBefore(cfg, head, s1, s2, gb, ab);
    assert h1[gb] != g1[gb] && h2[gb] != g2[gb];
  }

  // ---------------------------------------------------------------------
  // The chromosome

  class Chromosome {
    /** The class attributes `functions` and `terminals`. */
    const cfg: Config
    const genes: seq<KarvaGene>
    const head: nat
    const linker: seq<Value> -> Value
    /** The organism number `id`. */
    const id: nat

    ghost predicate Valid()
    {
      cfg.Ok() && |genes| >= 1 && GenesOk(cfg, head, genes)
    }

    /** `__init__` once its checks have passed: takes the class counter as the
        organism number and increments it. */
    constructor (cfg: Config, genes: seq<KarvaGene>, head: nat, linker: seq<Value> -> Value, counter: IdCounter)
      requires |genes| >= 1
      modifies counter
      ensures this.cfg == cfg && this.genes == genes && this.head == head && this.linker == linker
      ensures id == old(counter.next) && counter.next == old(counter.next) + 1
    {
      this.cfg := cfg;
      this.genes := genes;
      this.head := head;
      this.linker := linker;
      this.id := counter.next;
      counter.next := counter.next + 1;
    }

    /** `__init__` with its checks: a negative head or an empty gene list is
        a ValueError and takes no organism number. */
    static method Create(cfg: Config, genes: seq<KarvaGene>, head: int, linker: seq<Value> -> Value,
                         counter: IdCounter)
      returns (r: Result<Chromosome>)
      modifies counter
      ensures head < 0 ==> r == Err(NegativeHead) && counter.next == old(counter.next)
      ensures head >= 0 && genes == [] ==> r == Err(NoGenes) && counter.next == old(counter.next)
      ensures head >= 0 && genes != [] ==>
        r.Ok? && fresh(r.value) && r.value.cfg == cfg && r.value.genes == genes &&
        r.value.head == head && r.value.linker == linker &&
        r.value.id == old(counter.next) && counter.next == old(counter.next) + 1
    {
      if head < 0 {
        return Err(NegativeHead);
      }
      if genes == [] {
        return Err(NoGenes);
      }
      var c := new Chromosome(cfg, genes, head, linker, counter);
      r := Ok(c);
    }

    /** `generate`: one chromosome of `count` genes, each of `head` loci
        drawn from the symbols and a tail drawn from the terminals.  The
        draws are the parameter `picks`. */
    static method Generate(cfg: Config, head: nat, count: nat, linker: seq<Value> -> Value,
                           picks: seq<seq<Symbol>>, counter: IdCounter)
      returns (r: Result<Chromosome>)
      requires cfg.Ok()
      requires |picks| == count
      requires forall g :: 0 <= g < count ==> AllelesOk(cfg, head, picks[g])
      modifies counter
      ensures count == 0 ==> r == Err(NoGenes) && counter.next == old(counter.next)
      ensures count >= 1 ==>
        r.Ok? && fresh(r.value) && r.value.Valid() &&
        r.value.cfg == cfg && r.value.linker == linker &&
        Alleles(r.value.genes) == picks && r.value.head == head &&
        r.value.id == old(counter.next) && counter.next == old(counter.next) + 1
    {
      var gs: seq<KarvaGene> := [];
      var i := 0;
      while i < count
        invariant 0 <= i <= count && |gs| == i
        invariant forall g :: 0 <= g < i ==> GeneOk(cfg, head, gs[g]) && gs[g].alleles == picks[g]
        invariant counter.next == old(counter.next)
      {
        AllelesSized(cfg, head, picks[i]);
        var x := new KarvaGene(picks[i], head, cfg.MaxArity());
        assert Alleles(gs + [x]) == Alleles(gs) + [x.alleles];
        gs := gs + [x];
        i := i + 1;
      }
      r := Create(cfg, gs, head, linker, counter);
    }

    /** `len(chromosome)`: the total number of loci. */
    function Length(): nat
    {
      TotalLength(Alleles(genes))
    }

    /** Every gene has the generated length. */
    lemma LengthIsGenesTimesGeneLength()
      requires Valid()
      ensures Length() == |genes| * GeneLength(head, cfg.MaxArity())
    {
      LengthIsFlat();
      FlatIsProduct(|genes|, 0, GeneLength(head, cfg.MaxArity()));
    }

    /** The same, as the flattened position past the last gene. */
    lemma LengthIsFlat()
      requires Valid()
      ensures Length() == Flat(|genes|, 0, GeneLength(head, cfg.MaxArity()))
    {
      GenesUniform(cfg, head, genes);
      TotalLengthUniform(Alleles(genes), GeneLength(head, cfg.MaxArity()));
    }

    /** `_child`: a new chromosome of the same class, head and linker, unless
        the gene list holds the same gene objects as this one. */
    method Child(gs: seq<KarvaGene>, counter: IdCounter) returns (r: Chromosome)
      requires |gs| >= 1
      modifies counter
      ensures gs == genes ==> r == this && counter.next == old(counter.next)
      ensures gs != genes ==>
        fresh(r) && r.cfg == cfg && r.genes == gs && r.head == head && r.linker == linker &&
        r.id == old(counter.next) && counter.next == old(counter.next) + 1
    {
      if gs != genes {
        r := new Chromosome(cfg, gs, head, linker, counter);
      } else {
        r := this;
      }
    }

    /** `__call__`: every gene evaluated against `obj`, combined in gene order
        by the linker. */
    method Call(obj: string -> Value, apply: (Symbol, seq<Value>) -> Value) returns (r: Value)
      requires Valid()
      ensures r == linker(seq(|genes|, g requires 0 <= g < |genes| =>
        EvalTree(Decode(genes[g].alleles), Seed(obj), apply)))
    {
      var values: seq<Value> := [];
      var g := 0;
      while g < |genes|
        invariant 0 <= g <= |genes| && |values| == g
        invariant forall h :: 0 <= h < g ==> values[h] == EvalTree(Decode(genes[h].alleles), Seed(obj), apply)
      {
        var v := genes[g].Call(obj, apply);
        values := values + [v];
        g := g + 1;
      }
      assert values == seq(|genes|, g requires 0 <= g < |genes| =>
        EvalTree(Decode(genes[g].alleles), Seed(obj), apply));
      r := linker(values);
    }


    /** `mutate(rate)`: `draws[g][i]` is the `random.random()` of locus `i`
        of gene `g` and `picks[g][i]` the allele then drawn for it (from the
        terminals in the tail, from all symbols in the head). */
    method Mutate(rate: real, draws: seq<seq<real>>, picks: seq<seq<Symbol>>, counter: IdCounter)
      returns (r: Chromosome)
      requires Valid()
      requires |draws| == |picks| == |genes|
      requires forall g :: 0 <= g < |genes| ==>
        |draws[g]| == |picks[g]| == |genes[g].alleles|
      requires forall g, i :: 0 <= g < |genes| && 0 <= i < |picks[g]| && draws[g][i] < rate ==>
        cfg.Allowed(head, i, picks[g][i])
      modifies counter
      ensures r.Valid() && r.cfg == cfg && r.head == head && r.linker == linker && |r.genes| == |genes|
      ensures forall g :: 0 <= g < |genes| ==>
        r.genes[g].alleles == MutatedAlleles(genes[g].alleles, draws[g], picks[g], rate)
      ensures forall g :: 0 <= g < |genes| ==>
        ((r.genes[g] == genes[g]) <==> (MutatedAlleles(genes[g].alleles, draws[g], picks[g], rate) == genes[g].alleles))
      ensures (r == this) <==>
        forall g :: 0 <= g < |genes| ==> MutatedAlleles(genes[g].alleles, draws[g], picks[g], rate) == genes[g].alleles
      ensures r == this ==> counter.next == old(counter.next)
      ensures r != this ==> fresh(r) && r.id == old(counter.next) && counter.next == old(counter.next) + 1
    {
      var gs := MutateGenes(cfg, head, genes, draws, picks, rate);
      r := Child(gs, counter);
    }

    /** `invert()`: with a head of at least 2, the loci between two distinct
        head positions `p` and `q` of gene `gi` are reversed; `p`, `q` and
        `gi` are the random draws. */
    method Invert(gi: nat, p: nat, q: nat, counter: IdCounter) returns (r: Chromosome)
      requires Valid()
      requires head >= 2 ==> gi < |genes| && p < head && q < head && p != q
      modifies counter
      ensures r.Valid() && r.cfg == cfg && r.head == head && r.linker == linker
      ensures head < 2 ==> r == this && counter.next == old(counter.next)
      ensures head >= 2 ==>
        fresh(r) && r.id == old(counter.next) && counter.next == old(counter.next) + 1 &&
        |r.genes| == |genes| && r.genes == genes[gi := r.genes[gi]] && fresh(r.genes[gi]) &&
        r.genes[gi].alleles == InvertRange(genes[gi].alleles, Min(p, q), Max(p, q))
    {
      if head < 2 {
        return this;
      }
      var start, stop := p, q;
      if start > stop {
        start, stop := stop, start;
      }
      var gene := genes[gi];
      InvertRangeAlleles(cfg, head, gene.alleles, start, stop);
      var replacement := Reversed(gene.alleles[start..stop]);
      var x := DeriveOne(cfg, head, gene, start, replacement);
      var gs := genes[gi := x];
      r := Child(gs, counter);
    }

    /** The gene list `gs` is this one with gene `t` replaced by a gene of
        loci `a`. */
    ghost predicate Replaced(gs: seq<KarvaGene>, t: nat, a: seq<Symbol>)
    {
      |gs| == |genes| && t < |genes| && gs[t].alleles == a &&
      forall g :: 0 <= g < |genes| && g != t ==> gs[g] == genes[g]
    }

    /** `transpose_is(length)`: a run of `length` loci from position `start`
        of gene `source`, truncated at the gene end, is inserted into the head
        of gene `target` at `offset` (draws from `[1, head)`).  The insertion
        is the intended one, keeping the target's head length; the code as
        written is `TransposedRun`. */
    method TransposeIs(length: nat, source: nat, target: nat, start: nat, offset: nat, counter: IdCounter)
      returns (r: Chromosome)
      requires Valid()
      requires head >= 2 ==>
        source < |genes| && target < |genes| &&
        start < |genes[source].alleles| && 1 <= offset < head
      modifies counter
      ensures r.Valid() && r.cfg == cfg && r.head == head && r.linker == linker
      ensures head < 2 ==> r == this && counter.next == old(counter.next)
      ensures head >= 2 ==>
        fresh(r) && r.id == old(counter.next) && counter.next == old(counter.next) + 1 &&
        |r.genes| == |genes| && fresh(r.genes[target]) &&
        Replaced(r.genes, target, Overwrite(genes[target].alleles, offset,
          Insert(genes[source].alleles[start..RunEnd(|genes[source].alleles|, start, length)],
                 genes[target].alleles, offset, head)))
    {
      if head < 2 {
        return this;
      }
      var gs := InsertRun(cfg, head, genes, source, target, start, length, offset);
      assert gs[target] != genes[target];
      r := Child(gs, counter);
    }

    /** `transpose_ris(length)`: a run of `length` loci starting at the
        function at position `start` of gene `source` (a draw among its
        function positions) is inserted at the root of gene `target`.  The
        chromosome itself when the source gene holds no function.  The
        insertion is the intended one, keeping the head length; the code as
        written is `TransposedRun` with offset 0. */
    method TransposeRis(length: nat, source: nat, target: nat, start: nat, counter: IdCounter)
      returns (r: Chromosome)
      requires Valid()
      requires source < |genes| && target < |genes|
      requires HasFunction(genes[source].alleles) ==>
        start < |genes[source].alleles| && genes[source].alleles[start].Func?
      modifies counter
      ensures r.Valid() && r.cfg == cfg && r.head == head && r.linker == linker
      ensures !HasFunction(genes[source].alleles) ==> r == this && counter.next == old(counter.next)
      ensures HasFunction(genes[source].alleles) ==>
        fresh(r) && r.id == old(counter.next) && counter.next == old(counter.next) + 1 &&
        |r.genes| == |genes| && fresh(r.genes[target]) &&
        Replaced(r.genes, target, Overwrite(genes[target].alleles, 0,
          Insert(genes[source].alleles[start..RunEnd(|genes[source].alleles|, start, length)],
                 genes[target].alleles, 0, head))) &&
        (length >= 1 ==> r.genes[target].alleles[0] == genes[source].alleles[start])
    {
      if !HasFunction(genes[source].alleles) {
        return this;
      }
      var gs := RootInsert(cfg, head, genes, source, target, start, length);
      r := Child(gs, counter);
    }

    /** `transpose_gene()`: gene slots `s` and `t` (distinct draws) are
        swapped; the chromosome itself when it has a single gene or when both
        slots hold the same gene object. */
    method TransposeGene(s: nat, t: nat, counter: IdCounter) returns (r: Chromosome)
      requires Valid()
      requires |genes| >= 2 ==> s < |genes| && t < |genes| && s != t
      modifies counter
      ensures r.Valid() && r.head == head && r.cfg == cfg && r.linker == linker
      ensures |genes| < 2 ==> r == this && counter.next == old(counter.next)
      ensures |genes| >= 2 ==>
        r.genes == genes[s := genes[t]][t := genes[s]] &&
        ((r == this) <==> genes[s] == genes[t]) &&
        (r == this ==> counter.next == old(counter.next)) &&
        (r != this ==> fresh(r) && r.id == old(counter.next) && counter.next == old(counter.next) + 1)
    {
      if |genes| < 2 {
        return this;
      }
      var gs := genes[s := genes[t]][t := genes[s]];
      assert gs == genes <==> genes[s] == genes[t] by {
        if gs == genes {
          assert gs[s] == genes[s];
        }
      }
      r := Child(gs, counter);
    }

    /** Two chromosomes of one class and shape, as every crossover assumes. */
    ghost predicate Compatible(other: Chromosome)
    {
      Valid() && other.Valid() && other.cfg == cfg && other.head == head &&
      |other.genes| == |genes|
    }

    /** `crossover_one_point(other)`: gene `gene` is crossed at locus
        `index`; every other gene object is kept.  Both children are new. */
    method CrossoverOnePoint(other: Chromosome, gene: nat, index: nat, counter: IdCounter)
      returns (c1: Chromosome, c2: Chromosome)
      requires Compatible(other)
      requires gene < |genes| && index < |genes[gene].alleles|
      modifies counter
      ensures fresh(c1) && fresh(c2) && c1.Valid() && c2.Valid()
      ensures c1.cfg == cfg && c1.head == head && c1.linker == linker
      ensures c2.cfg == other.cfg && c2.head == other.head && c2.linker == other.linker
      ensures c1.id == old(counter.next) && c2.id == old(counter.next) + 1 && counter.next == old(counter.next) + 2
      ensures |c1.genes| == |c2.genes| == |genes|
      ensures fresh(c1.genes[gene]) && fresh(c2.genes[gene])
      ensures c1.genes == genes[gene := c1.genes[gene]] && c2.genes == other.genes[gene := c2.genes[gene]]
      ensures c1.genes[gene].alleles == CrossGene(genes[gene].alleles, other.genes[gene].alleles, index)
      ensures c2.genes[gene].alleles == CrossGene(other.genes[gene].alleles, genes[gene].alleles, index)
    {
      assert GeneOk(cfg, head, genes[gene]) && GeneOk(cfg, head, other.genes[gene]);
      var a1, a2 := genes[gene].alleles, other.genes[gene].alleles;
      CrossGeneAlleles(cfg, head, a1, a2, index);
      CrossGeneAlleles(cfg, head, a2, a1, index);
      var x1 := DeriveOne(cfg, head, genes[gene], index, a2[index..]);
      var x2 := DeriveOne(cfg, head, other.genes[gene], index, a1[index..]);
      var g1, g2 := genes[gene := x1], other.genes[gene := x2];
      c1 := Child(g1, counter);
      c2 := other.Child(g2, counter);
    }

    /** `crossover_two_point(other)`: `i1`, `i2` are the two distinct
        positions drawn from the flattened chromosome.  Returns both parents
        when the chromosome has fewer than two loci.  When both points fall
        in one gene the loci between them are exchanged in one derivation,
        the evidently intended behaviour; the code as written is `TwoPoint`. */
    method CrossoverTwoPoint(other: Chromosome, i1: nat, i2: nat, counter: IdCounter)
      returns (c1: Chromosome, c2: Chromosome)
      requires Compatible(other)
      requires Length() >= 2 ==> i1 < Length() && i2 < Length() && i1 != i2
      modifies counter
      ensures c1.Valid() && c2.Valid()
      ensures c1.cfg == cfg && c1.head == head && c1.linker == linker
      ensures c2.cfg == other.cfg && c2.head == other.head && c2.linker == other.linker
      ensures Length() < 2 ==> c1 == this && c2 == other && counter.next == old(counter.next)
      ensures Length() >= 2 ==>
        var n := GeneLength(head, cfg.MaxArity());
        fresh(c1) && fresh(c2) && c1.id == old(counter.next) && c2.id == old(counter.next) + 1 &&
        counter.next == old(counter.next) + 2 &&
        SameShape(Alleles(genes), Alleles(other.genes)) && Uniform(Alleles(genes), n) &&
        Min(i1, i2) < Max(i1, i2) < Flat(|genes|, 0, n) &&
        (Alleles(c1.genes), Alleles(c2.genes)) ==
          TwoPointAt(Alleles(genes), Alleles(other.genes), n, Min(i1, i2), Max(i1, i2)) &&
        n >= 1 &&
        var ga, gb := DivMod(Min(i1, i2), n).0, DivMod(Max(i1, i2), n).0;
        TwoPointObjects(genes, other.genes, c1.genes, c2.genes, ga, gb) &&
        fresh(c1.genes[ga]) && fresh(c2.genes[ga]) && fresh(c1.genes[gb]) && fresh(c2.genes[gb])
    {
      if Length() < 2 {
        return this, other;
      }
      var lo, hi := i1, i2;
      if lo > hi {
        lo, hi := hi, lo;
      }
      LengthIsFlat();
      var g1, g2 := TwoPointGenes(cfg, head, genes, other.genes, lo, hi);
      c1 := Child(g1, counter);
      c2 := other.Child(g2, counter);
    }

    /** `crossover_gene(other)`: the two parents exchange gene slot `gene`.
        A child is its parent itself when both slots hold the same gene
        object. */
    method CrossoverGene(other: Chromosome, gene: nat, counter: IdCounter)
      returns (c1: Chromosome, c2: Chromosome)
      requires Compatible(other)
      requires gene < |genes|
      modifies counter
      ensures c1.Valid() && c2.Valid()
      ensures c1.cfg == cfg && c1.head == head && c1.linker == linker
      ensures c2.cfg == other.cfg && c2.head == other.head && c2.linker == other.linker
      ensures c1.genes == genes[gene := other.genes[gene]]
      ensures c2.genes == other.genes[gene := genes[gene]]
      ensures (c1 == this) <==> genes[gene] == other.genes[gene]
      ensures (c2 == other) <==> genes[gene] == other.genes[gene]
      ensures genes[gene] == other.genes[gene] ==> counter.next == old(counter.next)
      ensures genes[gene] != other.genes[gene] ==>
        fresh(c1) && fresh(c2) && c1.id == old(counter.next) && c2.id == old(counter.next) + 1 &&
        counter.next == old(counter.next) + 2
    {
      var g1, g2 := genes[gene := other.genes[gene]], other.genes[gene := genes[gene]];
      assert g1 == genes <==> genes[gene] == other.genes[gene] by {
        if g1 == genes {
          assert g1[gene] == genes[gene];
        }
      }
      assert g2 == other.genes <==> genes[gene] == other.genes[gene] by {
        if g2 == other.genes {
          assert g2[gene] == other.genes[gene];
        }
      }
      c1 := Child(g1, counter);
      c2 := other.Child(g2, counter);
    }
  }
}
