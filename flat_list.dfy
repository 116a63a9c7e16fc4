/** The flat-list chromosome shared by tag 0.1.2-beta and trunk: all genes
    concatenated into one list of symbols, gene `g` occupying the positions
    `[g * n, g * n + n)` for the gene length `n`.  This module holds the
    layout, the coding-region loop of `__init__`, the gene-by-gene reverse
    scan of `evaluate` and the crossover splices, which the two snapshots
    write identically. */
module FlatList {
  import opened Symbols
  import opened Karva
  import opened Loci
  import opened Positions

  // ---------------------------------------------------------------------
  // Layout

  /** A flat chromosome of `count` genes of the class's gene length, each
      locus legal for its position inside its gene (only terminals in a
      tail). */
  predicate Layout(cfg: Config, head: nat, count: nat, loci: seq<Symbol>)
  {
    var n := GeneLength(head, cfg.MaxArity());
    cfg.Ok() && count >= 1 && |loci| == Flat(count, 0, n) &&
    forall p :: 0 <= p < |loci| ==> cfg.Allowed(head, DivMod(p, n).1, loci[p])
  }

  /** The loci of gene `g`: `chromosome[start:start + gene_length]`. */
  function GeneOf(loci: seq<Symbol>, n: nat, g: nat): (x: seq<Symbol>)
    requires Flat(g, 0, n) + n <= |loci|
    ensures |x| == n
  {
    loci[Flat(g, 0, n)..Flat(g, 0, n) + n]
  }

  /** Locus `k` of gene `g` is the flat position `Flat(g, k, n)`. */
  lemma GeneLoci(loci: seq<Symbol>, n: nat, g: nat)
    requires Flat(g, 0, n) + n <= |loci|
    ensures forall k :: 0 <= k < n ==> Flat(g, k, n) < |loci| && GeneOf(loci, n, g)[k] == loci[Flat(g, k, n)]
  {
    FlatShifts(g, n);
  }

  /** `_gene_starts`: `xrange(0, len(self), gene_length)`. */
  function GeneStarts(count: nat, n: nat): (r: seq<nat>)
    ensures |r| == count
  {
    seq(count, g requires 0 <= g < count => Flat(g, 0, n))
  }

  /** The gene starts are exactly the multiples of the gene length below the
      chromosome length. */
  lemma GeneStartsMultiples(count: nat, n: nat, p: nat)
    requires n >= 1
    ensures p in GeneStarts(count, n) <==> p < Flat(count, 0, n) && p % n == 0
  {
    DivModIsDivision(p, n);
    if p in GeneStarts(count, n) {
      var g :| 0 <= g < count && GeneStarts(count, n)[g] == p;
      FlatDivMod(g, 0, n);
      GeneInside(g, count, n);
    }
    if p < Flat(count, 0, n) && p % n == 0 {
      DivModBelow(p, n, count);
      assert GeneStarts(count, n)[p / n] == p;
    }
  }

  /** Every gene of a laid-out chromosome is a legal gene. */
  lemma GeneOk(cfg: Config, head: nat, count: nat, loci: seq<Symbol>, g: nat)
    requires Layout(cfg, head, count, loci) && g < count
    ensures var n := GeneLength(head, cfg.MaxArity());
      Flat(g, 0, n) + n <= |loci| && AllelesOk(cfg, head, GeneOf(loci, n, g))
  {
    var n := GeneLength(head, cfg.MaxArity());
    GeneInside(g, count, n);
    GeneLoci(loci, n, g);
    var x := GeneOf(loci, n, g);
    forall k | 0 <= k < n
      ensures cfg.Allowed(head, k, x[k])
    {
      FlatDivMod(g, k, n);
      assert cfg.Allowed(head, DivMod(Flat(g, k, n), n).1, loci[Flat(g, k, n)]);
    }
  }

  /** Any locus of a laid-out chromosome may sit in a head. */
  lemma LociSymbols(cfg: Config, head: nat, count: nat, loci: seq<Symbol>)
    requires Layout(cfg, head, count, loci)
    ensures forall p :: 0 <= p < |loci| ==> loci[p] in cfg.Symbols()
  {
    var n := GeneLength(head, cfg.MaxArity());
    forall p | 0 <= p < |loci|
      ensures loci[p] in cfg.Symbols()
    {
      assert cfg.Allowed(head, DivMod(p, n).1, loci[p]);
    }
  }

  /** Writing a legal gene over gene `g` keeps the layout. */
  lemma OverwriteGene(cfg: Config, head: nat, count: nat, loci: seq<Symbol>, g: nat, x: seq<Symbol>)
    requires Layout(cfg, head, count, loci) && g < count
    requires AllelesOk(cfg, head, x)
    ensures var n := GeneLength(head, cfg.MaxArity());
      Flat(g, 0, n) + n <= |loci| && Layout(cfg, head, count, Overwrite(loci, Flat(g, 0, n), x))
  {
    var n := GeneLength(head, cfg.MaxArity());
    GeneInside(g, count, n);
    var s := Flat(g, 0, n);
    var r := Overwrite(loci, s, x);
    forall p | 0 <= p < |r|
      ensures cfg.Allowed(head, DivMod(p, n).1, r[p])
    {
      if s <= p < s + n {
        LocusAt(g, p - s, n);
        assert r[p] == x[p - s];
        assert cfg.Allowed(head, p - s, x[p - s]);
      } else {
        assert r[p] == loci[p];
      }
    }
  }

  /** Locus `k` of gene `g` in flat terms. */
  lemma LocusAt(g: nat, k: nat, n: nat)
    requires k < n
    ensures Flat(g, 0, n) + k == Flat(g, k, n) && DivMod(Flat(g, 0, n) + k, n) == (g, k)
  {
    FlatShift(g, k, n);
    LocusDivMod(g, k, n);
  }

  lemma LocusDivMod(g: nat, k: nat, n: nat)
    requires k < n
    ensures DivMod(Flat(g, 0, n) + k, n) == (g, k)
  {
    FlatShift(g, k, n);
    FlatDivMod(g, k, n);
  }

  /** Writing head symbols into the head of gene `g`, from locus `offset`
      on, keeps the layout. */
  lemma HeadWrite(cfg: Config, head: nat, count: nat, loci: seq<Symbol>, g: nat, f: nat, offset: nat, x: seq<Symbol>)
    requires Layout(cfg, head, count, loci) && g < count && offset + |x| <= head
    requires f == Flat(g, 0, GeneLength(head, cfg.MaxArity()))
    requires forall k :: 0 <= k < |x| ==> x[k] in cfg.Symbols()
    ensures f + offset + |x| <= |loci|
    ensures Layout(cfg, head, count, Overwrite(loci, f + offset, x))
  {
    var n := GeneLength(head, cfg.MaxArity());
    GeneInside(g, count, n);
    var r := Overwrite(loci, f + offset, x);
    forall p | 0 <= p < |r|
      ensures cfg.Allowed(head, DivMod(p, n).1, r[p])
    {
      if f + offset <= p < f + offset + |x| {
        LocusAt(g, p - f, n);
        assert r[p] == x[p - f - offset];
      } else {
        assert r[p] == loci[p];
      }
    }
  }

  /** Overwriting `[b, b + n)` leaves a disjoint window `[a, a + n)` alone
      and makes the window `[b, b + n)` itself `x`. */
  lemma WindowOverwrite(loci: seq<Symbol>, a: nat, b: nat, n: nat, x: seq<Symbol>)
    requires a + n <= |loci| && b + n <= |loci| && |x| == n
    requires a == b || a + n <= b || b + n <= a
    ensures Overwrite(loci, b, x)[a..a + n] == if a == b then x else loci[a..a + n]
  {
    var r := Overwrite(loci, b, x);
    forall k | 0 <= k < n
      ensures r[a + k] == if a == b then x[k] else loci[a + k]
    {
    }
  }

  /** Two genes of a chromosome are the same gene or disjoint windows. */
  lemma GenesDisjoint(g: nat, h: nat, count: nat, n: nat)
    requires g < count && h < count
    ensures Flat(g, 0, n) + n <= Flat(count, 0, n) && Flat(h, 0, n) + n <= Flat(count, 0, n)
    ensures g == h || Flat(g, 0, n) + n <= Flat(h, 0, n) || Flat(h, 0, n) + n <= Flat(g, 0, n)
  {
    GeneInside(h, count, n);
    GeneInside(g, count, n);
    if g < h {
      FlatMono(g + 1, h, n);
    } else if g > h {
      FlatMono(h + 1, g, n);
    }
  }

  /** Overwriting gene `h` with `x` changes gene `h` to `x` and no other
      gene. */
  lemma GeneOfOverwrite(loci: seq<Symbol>, n: nat, count: nat, h: nat, x: seq<Symbol>, g: nat)
    requires |loci| == Flat(count, 0, n) && h < count && g < count && |x| == n
    ensures Flat(h, 0, n) + n <= |loci| && Flat(g, 0, n) + n <= |loci|
    ensures GeneOf(Overwrite(loci, Flat(h, 0, n), x), n, g) == if g == h then x else GeneOf(loci, n, g)
  {
    GenesDisjoint(g, h, count, n);
    var a, b := Flat(g, 0, n), Flat(h, 0, n);
    var r := Overwrite(loci, b, x);
    assert GeneOf(r, n, g) == r[a..a + n];
    if n == 0 {
      assert GeneOf(r, n, g) == [] == x;
      assert GeneOf(loci, n, g) == [];
    } else {
      assert a == b <==> g == h;
      WindowOverwrite(loci, a, b, n, x);
    }
  }

  /** A chromosome is determined by its genes. */
  lemma GenesDetermine(a: seq<Symbol>, b: seq<Symbol>, n: nat, count: nat)
    requires |a| == |b| == Flat(count, 0, n) && n >= 1
    requires forall g :: 0 <= g < count ==> Flat(g, 0, n) + n <= |a| && GeneOf(a, n, g) == GeneOf(b, n, g)
    ensures a == b
  {
    forall p | 0 <= p < |a|
      ensures a[p] == b[p]
    {
      var (g, k) := DivMod(p, n);
      DivModBelow(p, n, count);
      FlatShift(g, k, n);
      assert GeneOf(a, n, g)[k] == GeneOf(b, n, g)[k];
    }
  }

  // ---------------------------------------------------------------------
  // `generate`

  /** The genes appended one after the other. */
  function Concat(picks: seq<seq<Symbol>>): seq<Symbol>
  {
    if picks == [] then [] else Concat(picks[..|picks| - 1]) + picks[|picks| - 1]
  }

  /** Appending loci leaves the genes already there alone. */
  lemma GeneOfPrefix(a: seq<Symbol>, x: seq<Symbol>, n: nat, g: nat)
    requires Flat(g, 0, n) + n <= |a|
    ensures GeneOf(a + x, n, g) == GeneOf(a, n, g)
  {
    var f := Flat(g, 0, n);
    assert (a + x)[f..f + n] == a[f..f + n];
  }

  /** A gene appended after `m` genes is gene `m`. */
  lemma GeneOfSuffix(a: seq<Symbol>, x: seq<Symbol>, n: nat, m: nat)
    requires |a| == Flat(m, 0, n) && |x| == n
    ensures Flat(m, 0, n) + n == |a + x| && GeneOf(a + x, n, m) == x
  {
    assert (a + x)[|a|..|a| + n] == x;
  }

  /** Concatenated genes of `n` loci each are found again gene by gene. */
  lemma {:induction false} ConcatGenes(picks: seq<seq<Symbol>>, n: nat)
    requires forall g :: 0 <= g < |picks| ==> |picks[g]| == n
    ensures |Concat(picks)| == Flat(|picks|, 0, n)
    ensures forall g :: 0 <= g < |picks| ==>
      Flat(g, 0, n) + n <= |Concat(picks)| && GeneOf(Concat(picks), n, g) == picks[g]
  {
    if picks != [] {
      var m := |picks| - 1;
      var init := picks[..m];
      var c := Concat(init);
      ConcatGenes(init, n);
      assert Concat(picks) == c + picks[m];
      GeneOfSuffix(c, picks[m], n, m);
      forall g | 0 <= g < m
        ensures Flat(g, 0, n) + n <= |Concat(picks)| && GeneOf(Concat(picks), n, g) == picks[g]
      {
        GeneInside(g, m, n);
        GeneOfPrefix(c, picks[m], n, g);
      }
    }
  }

  /** Appending a legal gene to a laid-out prefix extends the layout. */
  lemma AppendGene(cfg: Config, head: nat, c: seq<Symbol>, i: nat, x: seq<Symbol>)
    requires cfg.Ok() && AllelesOk(cfg, head, x)
    requires |c| == Flat(i, 0, GeneLength(head, cfg.MaxArity()))
    requires forall p :: 0 <= p < |c| ==> cfg.Allowed(head, DivMod(p, GeneLength(head, cfg.MaxArity())).1, c[p])
    ensures var n := GeneLength(head, cfg.MaxArity());
      |c + x| == Flat(i + 1, 0, n) &&
      forall p :: 0 <= p < |c + x| ==> cfg.Allowed(head, DivMod(p, n).1, (c + x)[p])
  {
    var n := GeneLength(head, cfg.MaxArity());
    forall p | |c| <= p < |c + x|
      ensures cfg.Allowed(head, DivMod(p, n).1, (c + x)[p])
    {
      FlatShift(i, p - |c|, n);
      FlatDivMod(i, p - |c|, n);
      assert cfg.Allowed(head, p - |c|, x[p - |c|]);
    }
  }

  /** The `generate` loop: `count` genes of `head` symbols and a terminal
      tail, drawn as `picks`, appended in order. */
  method Extend(cfg: Config, head: nat, picks: seq<seq<Symbol>>) returns (c: seq<Symbol>)
    requires cfg.Ok()
    requires forall g :: 0 <= g < |picks| ==> AllelesOk(cfg, head, picks[g])
    ensures c == Concat(picks)
    ensures |picks| >= 1 ==> Layout(cfg, head, |picks|, c)
  {
    c := [];
    var i := 0;
    while i < |picks|
      invariant 0 <= i <= |picks|
      invariant c == Concat(picks[..i])
      invariant |c| == Flat(i, 0, GeneLength(head, cfg.MaxArity()))
      invariant forall p :: 0 <= p < |c| ==> cfg.Allowed(head, DivMod(p, GeneLength(head, cfg.MaxArity())).1, c[p])
    {
      AppendGene(cfg, head, c, i, picks[i]);
      assert picks[..i + 1][..i] == picks[..i];
      c := c + picks[i];
      i := i + 1;
    }
    assert picks[..i] == picks;
  }

  // ---------------------------------------------------------------------
  // The coding tuple of `__init__`

  /** `coding[g]` is the absolute index of the last coding locus of gene
      `g`: it lies inside that gene and closes its breadth-first tree. */
  ghost predicate CodingOk(loci: seq<Symbol>, n: nat, count: nat, coding: seq<nat>)
  {
    n >= 1 && |loci| == Flat(count, 0, n) && |coding| == count &&
    forall g :: 0 <= g < count ==> CodingAt(loci, n, g, coding[g])
  }

  /** `c` is the absolute index of the last coding locus of gene `g`. */
  ghost predicate CodingAt(loci: seq<Symbol>, n: nat, g: nat, c: nat)
  {
    Flat(g, 0, n) <= c < Flat(g, 0, n) + n <= |loci| &&
    Closed(GeneOf(loci, n, g), c - Flat(g, 0, n) + 1)
  }

  /** The arity count of `__init__` on the gene starting at `start`. */
  method GeneCoding(cfg: Config, head: nat, count: nat, loci: seq<Symbol>, g: nat, start: nat) returns (c: nat)
    requires Layout(cfg, head, count, loci) && g < count
    requires start == Flat(g, 0, GeneLength(head, cfg.MaxArity()))
    ensures CodingAt(loci, GeneLength(head, cfg.MaxArity()), g, c)
  {
    var n := GeneLength(head, cfg.MaxArity());
    GeneOk(cfg, head, count, loci, g);
    AllelesSized(cfg, head, GeneOf(loci, n, g));
    c := CountCoding(loci, start, start + n, head, cfg.MaxArity());
  }

  /** `__init__`'s loop over the gene starts, running the arity count on each
      gene. */
  method CodingIndexes(cfg: Config, head: nat, count: nat, loci: seq<Symbol>) returns (coding: seq<nat>)
    requires Layout(cfg, head, count, loci)
    ensures CodingOk(loci, GeneLength(head, cfg.MaxArity()), count, coding)
  {
    var n := GeneLength(head, cfg.MaxArity());
    coding := [];
    var start := 0;
    while start < |loci|
      invariant |coding| <= count && start == Flat(|coding|, 0, n)
      invariant forall g :: 0 <= g < |coding| ==> CodingAt(loci, n, g, coding[g])
      decreases |loci| - start
    {
      assert |coding| < count;
      var c := GeneCoding(cfg, head, count, loci, |coding|, start);
      coding := coding + [c];
      start := start + n;
    }
    if |coding| < count {
      GeneInside(|coding|, count, n);
    }
  }

  /** The coding index closes the gene's tree where `CodingLength` does, so
      the scanned tree is the decoded gene. */
  lemma CodingIsLast(cfg: Config, head: nat, count: nat, loci: seq<Symbol>, coding: seq<nat>, g: nat)
    requires Layout(cfg, head, count, loci)
    requires CodingOk(loci, GeneLength(head, cfg.MaxArity()), count, coding) && g < count
    ensures var n := GeneLength(head, cfg.MaxArity());
      Flat(g, 0, n) + n <= |loci| &&
      var x := GeneOf(loci, n, g);
      |x| >= 1 && Open(x, |x|) <= 0 &&
      coding[g] - Flat(g, 0, n) + 1 == CodingLength(x)
  {
    var n := GeneLength(head, cfg.MaxArity());
    GeneOk(cfg, head, count, loci, g);
    var x := GeneOf(loci, n, g);
    AllelesSized(cfg, head, x);
    SizedExhausts(x, head, cfg.MaxArity());
    ClosedUnique(x, coding[g] - Flat(g, 0, n) + 1, CodingLength(x));
  }

  // ---------------------------------------------------------------------
  // `evaluate`

  /** The value of gene `g`: its breadth-first tree evaluated recursively. */
  function GeneValue(loci: seq<Symbol>, n: nat, count: nat, coding: seq<nat>, g: nat,
                     leaf: Symbol -> Value, apply: (Symbol, seq<Value>) -> Value): Value
    requires CodingOk(loci, n, count, coding) && g < count
  {
    EvalTree(DecodeAt(GeneOf(loci, n, g), coding[g] - Flat(g, 0, n) + 1, 0), leaf, apply)
  }

  /** The values of all genes, in gene order. */
  function GeneValues(loci: seq<Symbol>, n: nat, count: nat, coding: seq<nat>,
                      leaf: Symbol -> Value, apply: (Symbol, seq<Value>) -> Value): (r: seq<Value>)
    requires CodingOk(loci, n, count, coding)
    ensures |r| == count
  {
    seq(count, g requires 0 <= g < count => GeneValue(loci, n, count, coding, g, leaf, apply))
  }

  /** The expression tree of gene `g` of a laid-out chromosome. */
  function GeneTree(cfg: Config, head: nat, count: nat, loci: seq<Symbol>, g: nat): Tree
    requires Layout(cfg, head, count, loci) && g < count
  {
    var n := GeneLength(head, cfg.MaxArity());
    GeneOk(cfg, head, count, loci, g);
    AllelesSized(cfg, head, GeneOf(loci, n, g));
    SizedExhausts(GeneOf(loci, n, g), head, cfg.MaxArity());
    Decode(GeneOf(loci, n, g))
  }

  /** What a Karva chromosome expresses: the value of each gene's tree, in
      gene order. */
  function Expressed(cfg: Config, head: nat, count: nat, loci: seq<Symbol>,
                     leaf: Symbol -> Value, apply: (Symbol, seq<Value>) -> Value): (r: seq<Value>)
    requires Layout(cfg, head, count, loci)
    ensures |r| == count
  {
    seq(count, g requires 0 <= g < count => EvalTree(GeneTree(cfg, head, count, loci, g), leaf, apply))
  }

  /** The trees the scan evaluates, bounded by the coding tuple, are the
      decoded genes. */
  lemma ValuesAreExpressed(cfg: Config, head: nat, count: nat, loci: seq<Symbol>, coding: seq<nat>,
                           leaf: Symbol -> Value, apply: (Symbol, seq<Value>) -> Value)
    requires Layout(cfg, head, count, loci)
    requires CodingOk(loci, GeneLength(head, cfg.MaxArity()), count, coding)
    ensures GeneValues(loci, GeneLength(head, cfg.MaxArity()), count, coding, leaf, apply) ==
      Expressed(cfg, head, count, loci, leaf, apply)
  {
    var n := GeneLength(head, cfg.MaxArity());
    forall g | 0 <= g < count
      ensures GeneValue(loci, n, count, coding, g, leaf, apply) ==
        EvalTree(GeneTree(cfg, head, count, loci, g), leaf, apply)
    {
      CodingIsLast(cfg, head, count, loci, coding, g);
    }
  }

  /** `self._eval[0:len(self):gene_length]`: the buffer at the gene starts. */
  function Stride<T>(s: seq<T>, n: nat): seq<T>
    requires n >= 1
    decreases |s|
  {
    if s == [] then [] else if |s| <= n then [s[0]] else [s[0]] + Stride(s[n..], n)
  }

  lemma {:induction false} StrideAt<T>(s: seq<T>, n: nat, count: nat)
    requires n >= 1 && |s| == Flat(count, 0, n)
    ensures |Stride(s, n)| == count
    ensures forall g :: 0 <= g < count ==> Flat(g, 0, n) < |s| && Stride(s, n)[g] == s[Flat(g, 0, n)]
    decreases count
  {
    if count == 1 {
      assert Flat(1, 0, n) == n;
    } else if count > 1 {
      FlatIsProduct(count - 1, 0, n);
      assert |s[n..]| == Flat(count - 1, 0, n) by {
        FlatIsProduct(count, 0, n);
      }
      StrideAt(s[n..], n, count - 1);
      forall g | 0 <= g < count
        ensures Flat(g, 0, n) < |s| && Stride(s, n)[g] == s[Flat(g, 0, n)]
      {
        GeneInside(g, count, n);
        if g > 0 {
          assert Stride(s, n)[g] == Stride(s[n..], n)[g - 1];
          FlatIsProduct(g, 0, n);
          FlatIsProduct(g - 1, 0, n);
        }
      }
    }
  }

  /** The buffer holds `want[h]` at the start of every gene `h < g`. */
  ghost predicate Done(s: seq<Value>, n: nat, g: nat, want: seq<Value>)
  {
    g <= |want| && forall h :: 0 <= h < g ==> Flat(h, 0, n) < |s| && s[Flat(h, 0, n)] == want[h]
  }

  /** The buffer is still seeded from position `from` on. */
  ghost predicate Seeded(s: seq<Value>, seed: seq<Value>, from: nat)
  {
    |s| == |seed| && forall j :: from <= j < |s| ==> s[j] == seed[j]
  }

  /** `seed` is the buffer `evaluate` fills before the scan. */
  ghost predicate SeedOf(seed: seq<Value>, loci: seq<Symbol>, leaf: Symbol -> Value)
  {
    |seed| == |loci| && forall j :: 0 <= j < |loci| ==> seed[j] == leaf(loci[j])
  }

  /** `cur` differs from `prev` only inside `[lo, hi)`. */
  ghost predicate Outside(prev: seq<Value>, cur: seq<Value>, lo: nat, hi: nat)
  {
    |prev| == |cur| && forall j :: 0 <= j < |cur| && !(lo <= j < hi) ==> cur[j] == prev[j]
  }

  /** The scan has reached gene `g`. */
  ghost predicate Progress(s: seq<Value>, seed: seq<Value>, n: nat, g: nat, want: seq<Value>)
  {
    Done(s, n, g, want) && Seeded(s, seed, Flat(g, 0, n))
  }

  /** The buffer after scanning gene `g`: the earlier gene starts keep their
      values, gene `g`'s start gets its own, the later genes are still
      seeded. */
  lemma AfterGene(prev: seq<Value>, cur: seq<Value>, seed: seq<Value>,
                  n: nat, g: nat, want: seq<Value>)
    requires n >= 1 && g < |want|
    requires Progress(prev, seed, n, g, want)
    requires Outside(prev, cur, Flat(g, 0, n), Flat(g, 0, n) + n)
    requires Flat(g, 0, n) < |cur| && cur[Flat(g, 0, n)] == want[g]
    ensures Progress(cur, seed, n, g + 1, want)
  {
    forall h | 0 <= h < g
      ensures Flat(h, 0, n) < |cur| && cur[Flat(h, 0, n)] == want[h]
    {
      GeneInside(h, g, n);
    }
  }

  /** A buffer holding `want[g]` at every gene start strides to `want`. */
  lemma StrideIs(s: seq<Value>, n: nat, count: nat, want: seq<Value>)
    requires n >= 1 && |s| == Flat(count, 0, n) && |want| == count
    requires Done(s, n, count, want)
    ensures Stride(s, n) == want
  {
    StrideAt(s, n, count);
  }

  /** The reverse scan of one gene: its start slot ends up holding the gene's
      value, and nothing outside the gene changes. */
  method ScanGene(buf: array<Value>, loci: seq<Symbol>, n: nat, count: nat, coding: seq<nat>, g: nat,
                  leaf: Symbol -> Value, apply: (Symbol, seq<Value>) -> Value,
                  ghost seed: seq<Value>, ghost want: seq<Value>)
    requires CodingOk(loci, n, count, coding) && g < count
    requires want == GeneValues(loci, n, count, coding, leaf, apply)
    requires SeedOf(seed, loci, leaf) && Seeded(buf[..], seed, Flat(g, 0, n))
    modifies buf
    ensures Flat(g, 0, n) + n <= |loci| == buf.Length
    ensures buf[..][Flat(g, 0, n)] == want[g]
    ensures Outside(old(buf[..]), buf[..], Flat(g, 0, n), Flat(g, 0, n) + n)
  {
    var start := Flat(g, 0, n);
    GeneInside(g, count, n);
    assert CodingAt(loci, n, g, coding[g]);
    assert GeneOf(loci, n, g) == loci[start..start + n];
    assert forall j :: start <= j < |loci| ==> buf[j] == buf[..][j];
    Scan(buf, loci, start, start + n, coding[g], leaf, apply);
    assert buf[start] == EvalTree(DecodeAt(loci[start..start + n], coding[g] - start + 1, start - start), leaf, apply);
    assert want[g] == GeneValue(loci, n, count, coding, g, leaf, apply);
  }

  /** The reverse scan of `evaluate` run gene after gene over the seeded
      buffer (`for coding, start in izip(self.coding, self._gene_starts)`):
      afterwards every gene start holds its gene's value. */
  method ScanAll(buf: array<Value>, loci: seq<Symbol>, n: nat, count: nat, coding: seq<nat>,
                 leaf: Symbol -> Value, apply: (Symbol, seq<Value>) -> Value,
                 ghost seed: seq<Value>, ghost want: seq<Value>)
    requires CodingOk(loci, n, count, coding)
    requires want == GeneValues(loci, n, count, coding, leaf, apply)
    requires SeedOf(seed, loci, leaf) && buf[..] == seed
    modifies buf
    ensures buf.Length == |loci| && Done(buf[..], n, count, want)
  {
    var g := 0;
    while g < count
      invariant g <= count
      invariant Progress(buf[..], seed, n, g, want)
    {
      ghost var prev := buf[..];
      ScanGene(buf, loci, n, count, coding, g, leaf, apply, seed, want);
      AfterGene(prev, buf[..], seed, n, g, want);
      g := g + 1;
    }
  }

  /** The scan of `evaluate`, then the buffer values at the gene starts
      (`self._eval[0:len(self):gene_length]`): the value of every gene. */
  method ScanGenes(buf: array<Value>, loci: seq<Symbol>, n: nat, count: nat, coding: seq<nat>,
                   leaf: Symbol -> Value, apply: (Symbol, seq<Value>) -> Value)
    returns (values: seq<Value>)
    requires CodingOk(loci, n, count, coding)
    requires buf.Length == |loci| && forall j :: 0 <= j < buf.Length ==> buf[j] == leaf(loci[j])
    modifies buf
    ensures values == GeneValues(loci, n, count, coding, leaf, apply)
    ensures Done(buf[..], n, count, values)
  {
    ghost var want := GeneValues(loci, n, count, coding, leaf, apply);
    ScanAll(buf, loci, n, count, coding, leaf, apply, buf[..], want);
    values := Stride(buf[..], n);
    StrideIs(buf[..], n, count, want);
  }

  // ---------------------------------------------------------------------
  // Crossover

  /** `p1[:lo] + p2[lo:hi] + p1[hi:]`, the child of every flat crossover:
      one-point with `hi == len`, two-point, and gene crossover over one
      gene's positions. */
  function Crossed(p1: seq<Symbol>, p2: seq<Symbol>, lo: nat, hi: nat): (c: seq<Symbol>)
    requires lo <= hi <= |p1| == |p2|
    ensures |c| == |p1|
  {
    p1[..lo] + p2[lo..hi] + p1[hi..]
  }

  /** The two children exchange their parents' loci position by position:
      inside `[lo, hi)` each takes the other parent's locus, outside it its
      own, so at every position the pair of loci is the parents' pair. */
  lemma CrossedLoci(p1: seq<Symbol>, p2: seq<Symbol>, lo: nat, hi: nat)
    requires lo <= hi <= |p1| == |p2|
    ensures forall k :: 0 <= k < |p1| ==>
      Crossed(p1, p2, lo, hi)[k] == (if lo <= k < hi then p2[k] else p1[k]) &&
      Crossed(p2, p1, lo, hi)[k] == (if lo <= k < hi then p1[k] else p2[k])
    ensures forall k :: 0 <= k < |p1| ==>
      multiset{Crossed(p1, p2, lo, hi)[k], Crossed(p2, p1, lo, hi)[k]} == multiset{p1[k], p2[k]}
  {
    var c1, c2 := Crossed(p1, p2, lo, hi), Crossed(p2, p1, lo, hi);
    forall k | 0 <= k < |p1|
      ensures c1[k] == (if lo <= k < hi then p2[k] else p1[k])
      ensures c2[k] == (if lo <= k < hi then p1[k] else p2[k])
    {
      if k < lo {
        assert c1[k] == p1[..lo][k];
        assert c2[k] == p2[..lo][k];
      } else if k < hi {
        assert c1[k] == p2[lo..hi][k - lo];
        assert c2[k] == p1[lo..hi][k - lo];
      } else {
        assert c1[k] == p1[hi..][k - hi];
        assert c2[k] == p2[hi..][k - hi];
      }
    }
  }

  /** Children of two laid-out parents are laid out. */
  lemma CrossedLayout(cfg: Config, head: nat, count: nat, p1: seq<Symbol>, p2: seq<Symbol>, lo: nat, hi: nat)
    requires Layout(cfg, head, count, p1) && Layout(cfg, head, count, p2) && lo <= hi <= |p1|
    ensures Layout(cfg, head, count, Crossed(p1, p2, lo, hi))
  {
    var n := GeneLength(head, cfg.MaxArity());
    CrossedLoci(p1, p2, lo, hi);
    var c := Crossed(p1, p2, lo, hi);
    forall p | 0 <= p < |c|
      ensures cfg.Allowed(head, DivMod(p, n).1, c[p])
    {
      assert cfg.Allowed(head, DivMod(p, n).1, p1[p]) && cfg.Allowed(head, DivMod(p, n).1, p2[p]);
    }
  }
}
