/** The tag 0.1.2-beta chromosome: one flat list of loci holding every gene,
    a head length, a gene count, a linker, the coding tuple and the buffer
    `evaluate` scans in.  Every operator builds a new list and returns a
    child chromosome when the list differs from this one's, the chromosome
    itself otherwise; both crossovers always return two new children. */
module TagChromosome {
  import opened Symbols
  import opened Karva
  import opened Loci
  import opened PyList
  import opened Ids
  import opened Positions
  import opened FlatList

  /** The Python exceptions the operators raise: `len(self) / self.genes`
      with no genes, `random.choice` of an empty range and `random.sample`
      of two out of fewer. */
  datatype Error = ZeroDivisionError | IndexError | ValueError
  datatype Result<T> = Ok(value: T) | Err(error: Error)

  // ---------------------------------------------------------------------
  // `mutate`

  /** Point mutation keeps the layout when every redrawn locus holds a
      symbol of its position's pool. */
  lemma MutatedLayout(cfg: Config, head: nat, count: nat, loci: seq<Symbol>,
                      draws: seq<real>, picks: seq<Symbol>, rate: real)
    requires Layout(cfg, head, count, loci) && |draws| == |picks| == |loci|
    requires forall p :: 0 <= p < |loci| && draws[p] < rate ==>
      cfg.Allowed(head, DivMod(p, GeneLength(head, cfg.MaxArity())).1, picks[p])
    ensures Layout(cfg, head, count, MutatedAlleles(loci, draws, picks, rate))
  {
    var n := GeneLength(head, cfg.MaxArity());
    var c := MutatedAlleles(loci, draws, picks, rate);
    forall p | 0 <= p < |c|
      ensures cfg.Allowed(head, DivMod(p, n).1, c[p])
    {
      if draws[p] >= rate {
        assert cfg.Allowed(head, DivMod(p, n).1, loci[p]);
      }
    }
  }

  /** The loop of `mutate`, gene by gene and locus by locus: locus `i` of the
      gene at `start` takes `picks[start + i]` when `draws[start + i]` is
      below the rate. */
  method MutateLoci(cfg: Config, head: nat, count: nat, loci: seq<Symbol>,
                    draws: seq<real>, picks: seq<Symbol>, rate: real)
    returns (c: seq<Symbol>)
    requires Layout(cfg, head, count, loci) && |draws| == |picks| == |loci|
    ensures c == MutatedAlleles(loci, draws, picks, rate)
  {
    var n := GeneLength(head, cfg.MaxArity());
    ghost var want := MutatedAlleles(loci, draws, picks, rate);
    c := loci;
    ghost var g := 0;
    var start := 0;
    while start < |loci|
      invariant g <= count && start == Flat(g, 0, n) <= |loci|
      invariant |c| == |loci|
      invariant forall p :: 0 <= p < |c| ==> c[p] == if p < start then want[p] else loci[p]
      decreases |loci| - start
    {
      GenesDisjoint(g, g, count, n);
      var i := 0;
      while i < n
        invariant i <= n && |c| == |loci|
        invariant forall p :: 0 <= p < |c| ==> c[p] == if p < start + i then want[p] else loci[p]
      {
        if draws[start + i] < rate {
          c := c[start + i := picks[start + i]];
        }
        i := i + 1;
      }
      start := start + n;
      g := g + 1;
    }
  }

  // ---------------------------------------------------------------------
  // Transposition

  /** A slice of loci that are all symbols holds only symbols. */
  lemma SliceSymbols(cfg: Config, loci: seq<Symbol>, lo: nat, hi: nat)
    requires lo <= hi <= |loci|
    requires forall p :: 0 <= p < |loci| ==> loci[p] in cfg.Symbols()
    ensures forall k :: 0 <= k < hi - lo ==> loci[lo..hi][k] in cfg.Symbols()
  {
    forall k | 0 <= k < hi - lo
      ensures loci[lo..hi][k] in cfg.Symbols()
    {
      assert loci[lo..hi][k] == loci[lo + k];
    }
  }

  /** Inserting a run of symbols into the window at `t` yields symbols. */
  lemma SpliceSymbols(cfg: Config, loci: seq<Symbol>, run: seq<Symbol>, tgt: seq<Symbol>,
                      t: nat, n: nat, offset: nat, head: nat)
    requires offset <= head <= n && t + n <= |loci| && tgt == loci[t..t + n]
    requires forall p :: 0 <= p < |loci| ==> loci[p] in cfg.Symbols()
    requires forall k :: 0 <= k < |run| ==> run[k] in cfg.Symbols()
    ensures |Insert(run, tgt, offset, head)| == head - offset
    ensures forall k :: 0 <= k < |Insert(run, tgt, offset, head)| ==> Insert(run, tgt, offset, head)[k] in cfg.Symbols()
  {
    SliceSymbols(cfg, loci, t, t + n);
    InsertSymbols(cfg, run, tgt, offset, head);
  }

  /** The transposon insertions write only head symbols. */
  lemma InsertSymbols(cfg: Config, run: seq<Symbol>, tgt: seq<Symbol>, offset: nat, head: nat)
    requires offset <= head <= |tgt|
    requires forall k :: 0 <= k < |run| ==> run[k] in cfg.Symbols()
    requires forall k :: 0 <= k < |tgt| ==> tgt[k] in cfg.Symbols()
    ensures forall k :: 0 <= k < |Insert(run, tgt, offset, head)| ==> Insert(run, tgt, offset, head)[k] in cfg.Symbols()
  {
    var x := Insert(run, tgt, offset, head);
    forall k | 0 <= k < |x|
      ensures x[k] in cfg.Symbols()
    {
      assert x[k] == (run + tgt[offset..head])[k];
      if k >= |run| {
        assert x[k] == tgt[offset + k - |run|];
      }
    }
  }

  /** The head `transpose_is` builds at gene start `t`,
      `(c[t:t+offset] + run + c[t+offset:t+head])[:head]`, is the insertion
      of the run at `offset`: it leaves `[t, t + offset)` alone. */
  lemma SplicedHead(loci: seq<Symbol>, t: nat, n: nat, offset: nat, head: nat, run: seq<Symbol>)
    requires offset <= head <= n && t + n <= |loci|
    ensures |(loci[t..t + offset] + run + loci[t + offset..t + head])[..head]| == head
    ensures Overwrite(loci, t, (loci[t..t + offset] + run + loci[t + offset..t + head])[..head]) ==
      Overwrite(loci, t + offset, Insert(run, loci[t..t + n], offset, head))
  {
    var built := (loci[t..t + offset] + run + loci[t + offset..t + head])[..head];
    var ins := Insert(run, loci[t..t + n], offset, head);
    WindowTail(loci, t, n, offset, head);
    var a, b := Overwrite(loci, t, built), Overwrite(loci, t + offset, ins);
    forall p | 0 <= p < |loci|
      ensures a[p] == b[p]
    {
      if t <= p < t + offset {
        assert built[p - t] == loci[t..t + offset][p - t];
      } else if t + offset <= p < t + head {
        assert built[p - t] == (run + loci[t + offset..t + head])[p - t - offset];
        assert ins[p - t - offset] == (run + loci[t + offset..t + head])[p - t - offset];
      }
    }
  }

  /** The head `transpose_ris` builds at gene start `t`,
      `(run + c[t:t+head])[:head]`, is the insertion of the run at the
      root. */
  lemma RootHead(loci: seq<Symbol>, t: nat, n: nat, head: nat, run: seq<Symbol>)
    requires head <= n && t + n <= |loci|
    ensures (run + loci[t..t + head])[..head] == Insert(run, loci[t..t + n], 0, head)
  {
    WindowTail(loci, t, n, 0, head);
  }

  /** Loci `[offset, head)` of the window at `t` are `[t + offset, t + head)`. */
  lemma WindowTail(loci: seq<Symbol>, t: nat, n: nat, offset: nat, head: nat)
    requires offset <= head <= n && t + n <= |loci|
    ensures loci[t..t + n][offset..head] == loci[t + offset..t + head]
  {
    var w := loci[t..t + n];
    forall k | 0 <= k < head - offset
      ensures w[offset..head][k] == loci[t + offset..t + head][k]
    {
      assert w[offset..head][k] == w[offset + k] == loci[t + offset + k];
    }
  }

  /** The function positions of `[lo, hi)`: the list `transpose_ris` draws
      its start from. */
  function FuncPositions(loci: seq<Symbol>, lo: nat, hi: nat): (r: seq<nat>)
    requires lo <= hi <= |loci|
    ensures forall p :: p in r <==> lo <= p < hi && loci[p].Func?
    decreases hi - lo
  {
    if lo == hi then []
    else (if loci[lo].Func? then [lo] else []) + FuncPositions(loci, lo + 1, hi)
  }

  /** Whether the draw of `transpose_ris` has anything to choose from, or
      raises the `IndexError` it catches. */
  function HasFunction(loci: seq<Symbol>, lo: nat, hi: nat): (b: bool)
    requires lo <= hi <= |loci|
    ensures b <==> exists p :: lo <= p < hi && loci[p].Func?
  {
    var fs := FuncPositions(loci, lo, hi);
    assert fs != [] ==> fs[0] in fs;
    fs != []
  }

  // ---------------------------------------------------------------------
  // Gene transposition

  /** `transpose_gene` on distinct genes `s` and `t`: gene `t` gets gene `s`
      and gene `s` the saved gene `t`; every other gene stays. */
  lemma SwappedGenes(loci: seq<Symbol>, n: nat, count: nat, s: nat, t: nat, g: nat)
    requires n >= 1 && |loci| == Flat(count, 0, n) && s < count && t < count && s != t && g < count
    ensures Flat(s, 0, n) + n <= |loci| && Flat(t, 0, n) + n <= |loci| && Flat(g, 0, n) + n <= |loci|
    ensures var c := Overwrite(Overwrite(loci, Flat(t, 0, n), GeneOf(loci, n, s)), Flat(s, 0, n), GeneOf(loci, n, t));
      GeneOf(c, n, g) == if g == s then GeneOf(loci, n, t) else if g == t then GeneOf(loci, n, s) else GeneOf(loci, n, g)
  {
    GenesDisjoint(s, t, count, n);
    var mid := Overwrite(loci, Flat(t, 0, n), GeneOf(loci, n, s));
    GeneOfOverwrite(loci, n, count, t, GeneOf(loci, n, s), g);
    GeneOfOverwrite(mid, n, count, s, GeneOf(loci, n, t), g);
  }

  /** Swapping two genes changes the chromosome exactly when they differ. */
  lemma SwapUnchanged(loci: seq<Symbol>, n: nat, count: nat, s: nat, t: nat)
    requires n >= 1 && |loci| == Flat(count, 0, n) && s < count && t < count && s != t
    ensures Flat(s, 0, n) + n <= |loci| && Flat(t, 0, n) + n <= |loci|
    ensures Overwrite(Overwrite(loci, Flat(t, 0, n), GeneOf(loci, n, s)), Flat(s, 0, n), GeneOf(loci, n, t)) == loci
      <==> GeneOf(loci, n, s) == GeneOf(loci, n, t)
  {
    GenesDisjoint(s, t, count, n);
    var c := Overwrite(Overwrite(loci, Flat(t, 0, n), GeneOf(loci, n, s)), Flat(s, 0, n), GeneOf(loci, n, t));
    if GeneOf(loci, n, s) == GeneOf(loci, n, t) {
      forall g | 0 <= g < count
        ensures Flat(g, 0, n) + n <= |c| && GeneOf(c, n, g) == GeneOf(loci, n, g)
      {
        SwappedGenes(loci, n, count, s, t, g);
      }
      GenesDetermine(c, loci, n, count);
    }
    if c == loci {
      SwappedGenes(loci, n, count, s, t, s);
    }
  }

  /** IS transposition: the run of `length` loci
      from locus `start` of the gene that begins at `s`, truncated at the
      gene end, is inserted at `offset` into the head of the gene that
      begins at `t`. */
  function IsTransposed(loci: seq<Symbol>, n: nat, head: nat, length: nat, s: nat, t: nat,
                        start: nat, offset: nat): (c: seq<Symbol>)
    requires s + n <= |loci| && t + n <= |loci| && start < n && offset <= head <= n
    ensures |c| == |loci|
  {
    Overwrite(loci, t + offset, IsHead(loci, n, head, length, s, t, start, offset))
  }

  /** The loci `[offset, head)` of the target head after IS transposition. */
  function IsHead(loci: seq<Symbol>, n: nat, head: nat, length: nat, s: nat, t: nat,
                  start: nat, offset: nat): (x: seq<Symbol>)
    requires s + n <= |loci| && t + n <= |loci| && start < n && offset <= head <= n
    ensures |x| == head - offset
  {
    Insert(loci[s + start..s + RunEnd(n, start, length)], loci[t..t + n], offset, head)
  }

  /** IS transposition writes only symbols. */
  lemma IsHeadSymbols(cfg: Config, loci: seq<Symbol>, n: nat, head: nat, length: nat, s: nat, t: nat,
                      start: nat, offset: nat)
    requires s + n <= |loci| && t + n <= |loci| && start < n && offset <= head <= n
    requires forall p :: 0 <= p < |loci| ==> loci[p] in cfg.Symbols()
    ensures forall k :: 0 <= k < head - offset ==> IsHead(loci, n, head, length, s, t, start, offset)[k] in cfg.Symbols()
  {
    var end := RunEnd(n, start, length);
    SliceSymbols(cfg, loci, s + start, s + end);
    SpliceSymbols(cfg, loci, loci[s + start..s + end], loci[t..t + n], t, n, offset, head);
  }

  /** IS transposition keeps the layout. */
  lemma IsTransposedLayout(cfg: Config, head: nat, count: nat, loci: seq<Symbol>,
                           length: nat, target: nat, start: nat, offset: nat, s: nat, t: nat)
    requires Layout(cfg, head, count, loci) && target < count
    requires start < GeneLength(head, cfg.MaxArity()) && offset <= head
    requires t == Flat(target, 0, GeneLength(head, cfg.MaxArity()))
    requires s + GeneLength(head, cfg.MaxArity()) <= |loci| && t + GeneLength(head, cfg.MaxArity()) <= |loci|
    ensures Layout(cfg, head, count, IsTransposed(loci, GeneLength(head, cfg.MaxArity()), head, length, s, t, start, offset))
  {
    var n := GeneLength(head, cfg.MaxArity());
    var x := IsHead(loci, n, head, length, s, t, start, offset);
    assert forall k :: 0 <= k < |x| ==> x[k] in cfg.Symbols() by {
      LociSymbols(cfg, head, count, loci);
      IsHeadSymbols(cfg, loci, n, head, length, s, t, start, offset);
    }
    HeadWrite(cfg, head, count, loci, target, t, offset, x);
  }

  /** IS transposition writes only the target head range
      `[t + offset, t + head)`, which receives the new head loci. */
  lemma IsTransposedFrame(loci: seq<Symbol>, n: nat, head: nat, length: nat, s: nat, t: nat,
                          start: nat, offset: nat)
    requires s + n <= |loci| && t + n <= |loci| && start < n && offset <= head <= n
    ensures forall p :: 0 <= p < |loci| && !(t + offset <= p < t + head) ==>
      IsTransposed(loci, n, head, length, s, t, start, offset)[p] == loci[p]
    ensures forall k :: 0 <= k < head - offset ==>
      IsTransposed(loci, n, head, length, s, t, start, offset)[t + offset + k] ==
        IsHead(loci, n, head, length, s, t, start, offset)[k]
  {
  }

  /** The list `transpose_is` builds: `c[target:target + head]` replaced by
      `(c[target:target + offset] + c[source + start:source + end] +
      c[target + offset:target + head])[:head]`. */
  method TransposeIsLoci(loci: seq<Symbol>, n: nat, head: nat, length: nat, s: nat, t: nat,
                         start: nat, offset: nat)
    returns (c: seq<Symbol>)
    requires s + n <= |loci| && t + n <= |loci| && start < n && offset <= head <= n
    ensures c == IsTransposed(loci, n, head, length, s, t, start, offset)
  {
    var end := RunEnd(n, start, length);
    var built := (loci[t..t + offset] + loci[s + start..s + end] + loci[t + offset..t + head])[..head];
    c := Overwrite(loci, t, built);
    SplicedHead(loci, t, n, offset, head, loci[s + start..s + end]);
  }

  /** RIS transposition: the run
      `c[start:start + length]`, truncated at `start + gene_length` and at
      the end of the list, is inserted at the root of the gene that begins
      at `t`. */
  function RisTransposed(loci: seq<Symbol>, n: nat, head: nat, length: nat, t: nat, start: nat): (c: seq<Symbol>)
    requires t + n <= |loci| && head <= n
    ensures |c| == |loci|
  {
    Overwrite(loci, t, RisHead(loci, n, head, length, t, start))
  }

  /** The target head after RIS transposition. */
  function RisHead(loci: seq<Symbol>, n: nat, head: nat, length: nat, t: nat, start: nat): (x: seq<Symbol>)
    requires t + n <= |loci| && head <= n
    ensures |x| == head
  {
    Insert(Slice(loci, start, start + Min(length, n)), loci[t..t + n], 0, head)
  }

  /** RIS transposition writes only symbols. */
  lemma RisHeadSymbols(cfg: Config, loci: seq<Symbol>, n: nat, head: nat, length: nat, t: nat, start: nat)
    requires t + n <= |loci| && head <= n
    requires forall p :: 0 <= p < |loci| ==> loci[p] in cfg.Symbols()
    ensures forall k :: 0 <= k < head ==> RisHead(loci, n, head, length, t, start)[k] in cfg.Symbols()
  {
    var run := Slice(loci, start, start + Min(length, n));
    forall k | 0 <= k < |run|
      ensures run[k] in cfg.Symbols()
    {
      assert run[k] == loci[Bound(start, |loci|) + k];
    }
    SpliceSymbols(cfg, loci, run, loci[t..t + n], t, n, 0, head);
  }

  /** RIS transposition keeps the layout. */
  lemma RisTransposedLayout(cfg: Config, head: nat, count: nat, loci: seq<Symbol>,
                            length: nat, target: nat, start: nat, t: nat)
    requires Layout(cfg, head, count, loci) && target < count
    requires t == Flat(target, 0, GeneLength(head, cfg.MaxArity())) && t + GeneLength(head, cfg.MaxArity()) <= |loci|
    ensures Layout(cfg, head, count, RisTransposed(loci, GeneLength(head, cfg.MaxArity()), head, length, t, start))
  {
    var n := GeneLength(head, cfg.MaxArity());
    var x := RisHead(loci, n, head, length, t, start);
    assert forall k :: 0 <= k < |x| ==> x[k] in cfg.Symbols() by {
      LociSymbols(cfg, head, count, loci);
      RisHeadSymbols(cfg, loci, n, head, length, t, start);
    }
    HeadWrite(cfg, head, count, loci, target, t, 0, x);
  }

  /** RIS transposition writes only the target head `[t, t + head)`, which
      receives the new head loci. */
  lemma RisTransposedFrame(loci: seq<Symbol>, n: nat, head: nat, length: nat, t: nat, start: nat)
    requires t + n <= |loci| && head <= n
    ensures forall p :: 0 <= p < |loci| && !(t <= p < t + head) ==>
      RisTransposed(loci, n, head, length, t, start)[p] == loci[p]
    ensures forall k :: 0 <= k < head ==>
      RisTransposed(loci, n, head, length, t, start)[t + k] == RisHead(loci, n, head, length, t, start)[k]
  {
  }

  /** The RIS run starts at the drawn function, which lands on the target's
      root (a function lies in a head, so the head is not empty). */
  lemma RisRoot(cfg: Config, head: nat, count: nat, loci: seq<Symbol>, length: nat, t: nat, start: nat)
    requires Layout(cfg, head, count, loci) && t + GeneLength(head, cfg.MaxArity()) <= |loci|
    requires start < |loci| && loci[start].Func? && length >= 1
    ensures RisTransposed(loci, GeneLength(head, cfg.MaxArity()), head, length, t, start)[t] == loci[start]
  {
    var n := GeneLength(head, cfg.MaxArity());
    assert 1 <= head by {
      assert cfg.Allowed(head, DivMod(start, n).1, loci[start]);
    }
    RootFirst(loci, n, head, length, t, start);
  }

  lemma RootFirst(loci: seq<Symbol>, n: nat, head: nat, length: nat, t: nat, start: nat)
    requires t + n <= |loci| && 1 <= head <= n
    requires start < |loci| && length >= 1
    ensures RisTransposed(loci, n, head, length, t, start)[t] == loci[start]
  {
    var run := Slice(loci, start, start + Min(length, n));
    assert run[0] == loci[start];
    var tgt := loci[t..t + n];
    assert Insert(run, tgt, 0, head)[0] == (run + tgt[0..head])[0] == run[0];
  }

  /** The list `transpose_ris` builds: `c[target:target + head]` replaced by
      `(c[start:end] + c[target:target + head])[:head]`. */
  method TransposeRisLoci(loci: seq<Symbol>, n: nat, head: nat, length: nat, t: nat, start: nat)
    returns (c: seq<Symbol>)
    requires t + n <= |loci| && head <= n
    ensures c == RisTransposed(loci, n, head, length, t, start)
  {
    var end, trunc := start + length, start + n;
    end := if end > trunc then trunc else end;
    var run := Slice(loci, start, end);
    RootHead(loci, t, n, head, run);
    c := Overwrite(loci, t, (run + loci[t..t + head])[..head]);
  }

  /** Genes beginning at `a` and `b` exchanged: the window at `b` gets the
      loci at `a`, then the window at `a` the saved loci at `b`. */
  function Swapped(loci: seq<Symbol>, n: nat, a: nat, b: nat): (c: seq<Symbol>)
    requires a + n <= |loci| && b + n <= |loci|
    ensures |c| == |loci|
  {
    Overwrite(Overwrite(loci, b, loci[a..a + n]), a, loci[b..b + n])
  }

  /** `Swapped` at the starts `a` and `b` of genes `s` and `t`, gene by gene. */
  lemma SwappedForm(loci: seq<Symbol>, n: nat, s: nat, t: nat, a: nat, b: nat)
    requires a == Flat(s, 0, n) && b == Flat(t, 0, n) && a + n <= |loci| && b + n <= |loci|
    ensures Swapped(loci, n, a, b) == Overwrite(Overwrite(loci, b, GeneOf(loci, n, s)), a, GeneOf(loci, n, t))
  {
  }

  /** The list `transpose_gene` builds for genes starting at `a` and `b`:
      `c[b:b + n] = c[a:a + n]`, then `c[a:a + n]` the saved `c[b:b + n]`. */
  method SwapLoci(loci: seq<Symbol>, n: nat, a: nat, b: nat) returns (c: seq<Symbol>)
    requires a + n <= |loci| && b + n <= |loci|
    ensures c == Swapped(loci, n, a, b)
  {
    var saved := loci[b..b + n];
    var mid := Overwrite(loci, b, loci[a..a + n]);
    c := Overwrite(mid, a, saved);
  }

  /** What swapping two distinct genes does, gene by gene, and when it
      changes nothing. */
  lemma SwapEffect(loci: seq<Symbol>, n: nat, count: nat, s: nat, t: nat)
    requires n >= 1 && |loci| == Flat(count, 0, n) && s < count && t < count && s != t
    ensures Flat(s, 0, n) + n <= |loci| && Flat(t, 0, n) + n <= |loci|
    ensures forall g :: 0 <= g < count ==>
      (Flat(g, 0, n) + n <= |loci| &&
       GeneOf(Swapped(loci, n, Flat(s, 0, n), Flat(t, 0, n)), n, g) ==
         if g == s then GeneOf(loci, n, t) else if g == t then GeneOf(loci, n, s) else GeneOf(loci, n, g))
    ensures Swapped(loci, n, Flat(s, 0, n), Flat(t, 0, n)) == loci <==> GeneOf(loci, n, s) == GeneOf(loci, n, t)
  {
    GenesDisjoint(s, t, count, n);
    SwappedForm(loci, n, s, t, Flat(s, 0, n), Flat(t, 0, n));
    var c := Overwrite(Overwrite(loci, Flat(t, 0, n), GeneOf(loci, n, s)), Flat(s, 0, n), GeneOf(loci, n, t));
    forall g | 0 <= g < count
      ensures Flat(g, 0, n) + n <= |c| &&
        GeneOf(c, n, g) == if g == s then GeneOf(loci, n, t) else if g == t then GeneOf(loci, n, s) else GeneOf(loci, n, g)
    {
      SwappedGenes(loci, n, count, s, t, g);
    }
    SwapUnchanged(loci, n, count, s, t);
  }

  /** Swapping two genes keeps the layout. */
  lemma SwapLayout(cfg: Config, head: nat, count: nat, loci: seq<Symbol>, s: nat, t: nat)
    requires Layout(cfg, head, count, loci) && s < count && t < count && s != t
    ensures Flat(s, 0, GeneLength(head, cfg.MaxArity())) + GeneLength(head, cfg.MaxArity()) <= |loci|
    ensures Flat(t, 0, GeneLength(head, cfg.MaxArity())) + GeneLength(head, cfg.MaxArity()) <= |loci|
    ensures Layout(cfg, head, count, Swapped(loci, GeneLength(head, cfg.MaxArity()),
      Flat(s, 0, GeneLength(head, cfg.MaxArity())), Flat(t, 0, GeneLength(head, cfg.MaxArity()))))
  {
    var n := GeneLength(head, cfg.MaxArity());
    GeneOk(cfg, head, count, loci, s);
    GeneOk(cfg, head, count, loci, t);
    OverwriteGene(cfg, head, count, loci, t, GeneOf(loci, n, s));
    var mid := Overwrite(loci, Flat(t, 0, n), GeneOf(loci, n, s));
    OverwriteGene(cfg, head, count, mid, s, GeneOf(loci, n, t));
    SwappedForm(loci, n, s, t, Flat(s, 0, n), Flat(t, 0, n));
  }

  // ---------------------------------------------------------------------
  // Head inversion

  /** Head inversion within gene `g`: that gene's loci `[start, stop)` are
      reversed in place. */
  function InvertedGene(loci: seq<Symbol>, n: nat, g: nat, start: nat, stop: nat): (c: seq<Symbol>)
    requires Flat(g, 0, n) + n <= |loci| && start <= stop <= n
    ensures |c| == |loci|
  {
    Overwrite(loci, Flat(g, 0, n), InvertRange(GeneOf(loci, n, g), start, stop))
  }

  /** Inverting a head range of gene `g` keeps the chromosome well formed,
      reverses that range of gene `g` and leaves every other gene as it was. */
  lemma InvertedGeneEffect(cfg: Config, head: nat, count: nat, loci: seq<Symbol>, g: nat, start: nat, stop: nat)
    requires Layout(cfg, head, count, loci) && g < count && start <= stop <= head
    ensures var n := GeneLength(head, cfg.MaxArity());
      Flat(g, 0, n) + n <= |loci| &&
      Layout(cfg, head, count, InvertedGene(loci, n, g, start, stop)) &&
      forall h :: 0 <= h < count ==>
        Flat(h, 0, n) + n <= |loci| &&
        GeneOf(InvertedGene(loci, n, g, start, stop), n, h) ==
          if h == g then InvertRange(GeneOf(loci, n, g), start, stop) else GeneOf(loci, n, h)
  {
    var n := GeneLength(head, cfg.MaxArity());
    GeneOk(cfg, head, count, loci, g);
    var x := InvertRange(GeneOf(loci, n, g), start, stop);
    InvertRangeAlleles(cfg, head, GeneOf(loci, n, g), start, stop);
    OverwriteGene(cfg, head, count, loci, g, x);
    forall h | 0 <= h < count
      ensures Flat(h, 0, n) + n <= |loci| &&
        GeneOf(Overwrite(loci, Flat(g, 0, n), x), n, h) == if h == g then x else GeneOf(loci, n, h)
    {
      GeneOfOverwrite(loci, n, count, g, x, h);
    }
  }

  /** The inversion leaves the list as it was exactly when the reversed
      range of gene `g` reads the same both ways. */
  lemma InvertedUnchanged(loci: seq<Symbol>, n: nat, count: nat, g: nat, start: nat, stop: nat)
    requires |loci| == Flat(count, 0, n) && g < count && start <= stop <= n
    ensures Flat(g, 0, n) + n <= |loci|
    ensures InvertedGene(loci, n, g, start, stop) == loci <==>
      InvertRange(GeneOf(loci, n, g), start, stop) == GeneOf(loci, n, g)
  {
    GenesDisjoint(g, g, count, n);
    var a := GeneOf(loci, n, g);
    var x := InvertRange(a, start, stop);
    var c := InvertedGene(loci, n, g, start, stop);
    GeneOfOverwrite(loci, n, count, g, x, g);
    if x == a {
      var f := Flat(g, 0, n);
      forall k | 0 <= k < |loci|
        ensures c[k] == loci[k]
      {
        if f <= k < f + n {
          assert c[k] == a[k - f];
        }
      }
    }
  }

  /** `invert()` as written reverses `chromosome[start:stop]`, positions of
      the whole list rather than of the drawn gene: the inversion always
      falls in the first gene, and every later gene, the drawn one included,
      is left as it was. */
  lemma InvertAsWrittenFirstGene(cfg: Config, head: nat, count: nat, loci: seq<Symbol>, g: nat,
                                 start: nat, stop: nat)
    requires Layout(cfg, head, count, loci) && g < count && start <= stop <= head
    ensures var n := GeneLength(head, cfg.MaxArity());
      InvertRange(loci, start, stop) == InvertedGene(loci, n, 0, start, stop) &&
      (g >= 1 ==>
        Flat(g, 0, n) + n <= |loci| && GeneOf(InvertRange(loci, start, stop), n, g) == GeneOf(loci, n, g))
  {
    var n := GeneLength(head, cfg.MaxArity());
    GeneOk(cfg, head, count, loci, 0);
    var a := GeneOf(loci, n, 0);
    assert a == loci[..n];
    assert a[start..stop] == loci[start..stop];
    var c := InvertedGene(loci, n, 0, start, stop);
    var w := InvertRange(loci, start, stop);
    forall k | 0 <= k < |loci|
      ensures w[k] == c[k]
    {
      if k < n {
        assert c[k] == InvertRange(a, start, stop)[k];
      }
    }
    InvertedGeneEffect(cfg, head, count, loci, 0, start, stop);
  }

  // ---------------------------------------------------------------------
  // The chromosome

  class Chromosome {
    /** The class attributes `functions` and `terminals`. */
    const cfg: Config
    /** `self.chromosome`: every gene's loci, one gene after the other. */
    const loci: seq<Symbol>
    const head: nat
    /** The number of genes `self.genes`. */
    const genes: nat
    const linker: seq<Value> -> Value
    /** `self._gene_length`. */
    const geneLength: nat
    /** The organism number `id`. */
    const id: nat
    /** `self.coding`: the absolute index of each gene's last coding locus. */
    const coding: seq<nat>
    /** `self._eval`, the buffer `evaluate` works in. */
    const eval: array<Value>

    ghost predicate Valid()
    {
      Layout(cfg, head, genes, loci) && geneLength == GeneLength(head, cfg.MaxArity()) &&
      CodingOk(loci, geneLength, genes, coding) && eval.Length == |loci|
    }

    /** `__init__`: the gene length is the list length over the gene count,
        the coding tuple comes from the arity count of each gene, and the
        organism number is taken from the class counter.  The buffer's
        initial contents are never read: `evaluate` seeds every slot. */
    constructor (cfg: Config, loci: seq<Symbol>, head: nat, genes: nat, linker: seq<Value> -> Value,
                 counter: IdCounter)
      requires Layout(cfg, head, genes, loci)
      modifies counter
      ensures Valid() && fresh(eval)
      ensures this.cfg == cfg && this.loci == loci && this.head == head && this.genes == genes &&
        this.linker == linker
      ensures id == old(counter.next) && counter.next == old(counter.next) + 1
    {
      var n := GeneLength(head, cfg.MaxArity());
      FlatQuotient(genes, n);
      this.cfg := cfg;
      this.loci := loci;
      this.head := head;
      this.genes := genes;
      this.linker := linker;
      this.geneLength := |loci| / genes;
      this.id := counter.next;
      var coding := CodingIndexes(cfg, head, genes, loci);
      this.coding := coding;
      this.eval := new Value[|loci|](i => None);
      counter.next := counter.next + 1;
    }

    /** One chromosome drawn by `generate`: `count` genes whose loci were
        drawn as `picks` (head from all symbols, tail from the terminals).
        No genes is the `ZeroDivisionError` of `len(self) / self.genes`,
        raised before an organism number is taken. */
    static method Generate(cfg: Config, head: nat, count: nat, linker: seq<Value> -> Value,
                           picks: seq<seq<Symbol>>, counter: IdCounter)
      returns (r: Result<Chromosome>)
      requires cfg.Ok() && |picks| == count
      requires forall g :: 0 <= g < count ==> AllelesOk(cfg, head, picks[g])
      modifies counter
      ensures count == 0 ==> r == Err(ZeroDivisionError) && counter.next == old(counter.next)
      ensures count >= 1 ==>
        r.Ok? && fresh(r.value) && r.value.Valid() &&
        r.value.cfg == cfg && r.value.head == head && r.value.genes == count && r.value.linker == linker &&
        r.value.loci == Concat(picks) &&
        r.value.id == old(counter.next) && counter.next == old(counter.next) + 1
    {
      var c := Extend(cfg, head, picks);
      if count == 0 {
        return Err(ZeroDivisionError);
      }
      var x := new Chromosome(cfg, c, head, count, linker, counter);
      r := Ok(x);
    }

    /** `len(self)` is the gene count times the gene length. */
    lemma LengthIsGenesTimesGeneLength()
      requires Valid()
      ensures |loci| == genes * geneLength
    {
      FlatIsProduct(genes, 0, geneLength);
    }

    /** `_child`: a new chromosome of the same class, head, gene count and
        linker over `c`. */
    method Child(c: seq<Symbol>, counter: IdCounter) returns (r: Chromosome)
      requires Valid() && Layout(cfg, head, genes, c)
      modifies counter
      ensures fresh(r) && r.Valid() && r.cfg == cfg && r.loci == c && r.head == head &&
        r.genes == genes && r.linker == linker
      ensures r.id == old(counter.next) && counter.next == old(counter.next) + 1
    {
      r := new Chromosome(cfg, c, head, genes, linker, counter);
    }

    /** The ending of every unary operator: a child over `c` when it differs
        from this chromosome's list, this chromosome otherwise. */
    method ChildIfChanged(c: seq<Symbol>, counter: IdCounter) returns (r: Chromosome)
      requires Valid() && Layout(cfg, head, genes, c)
      modifies counter
      ensures r.Valid() && r.cfg == cfg && r.loci == c && r.head == head &&
        r.genes == genes && r.linker == linker
      ensures (r == this) <==> c == loci
      ensures r == this ==> counter.next == old(counter.next)
      ensures r != this ==> fresh(r) && r.id == old(counter.next) && counter.next == old(counter.next) + 1
    {
      if c != loci {
        r := Child(c, counter);
      } else {
        r := this;
      }
    }

    /** `evaluate(obj)`: every slot of the buffer is seeded (functions with
        `None`, numbers with themselves, names with `getattr(obj, name)`),
        each gene is scanned in reverse up to its coding index, and the
        linker combines the values left at the gene starts, which are the
        values of the decoded gene trees. */
    method Evaluate(obj: string -> Value, apply: (Symbol, seq<Value>) -> Value) returns (r: Value)
      requires Valid()
      modifies eval
      ensures r == linker(Expressed(cfg, head, genes, loci, Seed(obj), apply))
      ensures Done(eval[..], geneLength, genes, Expressed(cfg, head, genes, loci, Seed(obj), apply))
    {
      var i := 0;
      while i < eval.Length
        invariant i <= eval.Length
        invariant forall j :: 0 <= j < i ==> eval[j] == Seed(obj)(loci[j])
      {
        match loci[i] {
          case Func(_, _) => eval[i] := None;
          case Const(v) => eval[i] := v;
          case Attr(name) => eval[i] := obj(name);
        }
        i := i + 1;
      }
      var values := ScanGenes(eval, loci, geneLength, genes, coding, Seed(obj), apply);
      ValuesAreExpressed(cfg, head, genes, loci, coding, Seed(obj), apply);
      r := linker(values);
    }

    /** `mutate(rate)`: `draws[p]` is the `random.random()` of flat position
        `p` and `picks[p]` the symbol then drawn for it, from the terminals in
        a tail and from all symbols in a head. */
    method Mutate(rate: real, draws: seq<real>, picks: seq<Symbol>, counter: IdCounter)
      returns (r: Chromosome)
      requires Valid() && |draws| == |picks| == |loci|
      requires forall p :: 0 <= p < |loci| && draws[p] < rate ==>
        cfg.Allowed(head, DivMod(p, geneLength).1, picks[p])
      modifies counter
      ensures r.Valid() && r.cfg == cfg && r.head == head && r.genes == genes && r.linker == linker
      ensures r.loci == MutatedAlleles(loci, draws, picks, rate)
      ensures (r == this) <==> MutatedAlleles(loci, draws, picks, rate) == loci
      ensures r == this ==> counter.next == old(counter.next)
      ensures r != this ==> fresh(r) && r.id == old(counter.next) && counter.next == old(counter.next) + 1
    {
      var c := MutateLoci(cfg, head, genes, loci, draws, picks, rate);
      MutatedLayout(cfg, head, genes, loci, draws, picks, rate);
      r := ChildIfChanged(c, counter);
    }

    /** `invert()`: `g` is the gene drawn by `random.choice(self._gene_starts)`
        and `p`, `q` the two distinct head positions of
        `random.sample(xrange(head), 2)`, which raises `ValueError` for a head
        shorter than 2.  Loci `[min, max)` of gene `g` are reversed (the
        list as written reverses them in the first gene whatever `g` is;
        see `InvertAsWrittenFirstGene`). */
    method Invert(g: nat, p: nat, q: nat, counter: IdCounter) returns (r: Result<Chromosome>)
      requires Valid() && g < genes
      requires head >= 2 ==> p < head && q < head && p != q
      modifies counter
      ensures head < 2 ==> r == Err(ValueError) && counter.next == old(counter.next)
      ensures head >= 2 ==>
        r.Ok? && r.value.Valid() && r.value.cfg == cfg && r.value.head == head &&
        r.value.genes == genes && r.value.linker == linker &&
        Flat(g, 0, geneLength) + geneLength <= |loci| && Max(p, q) <= geneLength &&
        r.value.loci == InvertedGene(loci, geneLength, g, Min(p, q), Max(p, q)) &&
        (forall h :: 0 <= h < genes ==>
          Flat(h, 0, geneLength) + geneLength <= |loci| &&
          GeneOf(r.value.loci, geneLength, h) ==
            if h == g then InvertRange(GeneOf(loci, geneLength, g), Min(p, q), Max(p, q))
            else GeneOf(loci, geneLength, h)) &&
        ((r.value == this) <==> InvertRange(GeneOf(loci, geneLength, g), Min(p, q), Max(p, q)) == GeneOf(loci, geneLength, g)) &&
        (r.value == this ==> counter.next == old(counter.next)) &&
        (r.value != this ==>
          fresh(r.value) && r.value.id == old(counter.next) && counter.next == old(counter.next) + 1)
    {
      if head < 2 {
        return Err(ValueError);
      }
      var start, stop := Min(p, q), Max(p, q);
      InvertedGeneEffect(cfg, head, genes, loci, g, start, stop);
      var c := InvertedGene(loci, geneLength, g, start, stop);
      InvertedUnchanged(loci, geneLength, genes, g, start, stop);
      var x := ChildIfChanged(c, counter);
      r := Ok(x);
    }

    /** `transpose_is(length)`, the second definition, which replaces the
        first: `source` and `target` are the gene draws, `start` the locus
        draw and `offset` the draw from `[1, head)`; an empty range of
        offsets (a head shorter than 2) is the `IndexError` of
        `random.choice`. */
    method TransposeIs(length: nat, source: nat, target: nat, start: nat, offset: nat, counter: IdCounter)
      returns (r: Result<Chromosome>)
      requires Valid() && source < genes && target < genes && start < geneLength
      requires head >= 2 ==> 1 <= offset < head
      modifies counter
      ensures head < 2 ==> r == Err(IndexError) && counter.next == old(counter.next)
      ensures head >= 2 ==>
        r.Ok? && r.value.Valid() && r.value.cfg == cfg && r.value.head == head &&
        r.value.genes == genes && r.value.linker == linker &&
        Flat(source, 0, geneLength) + geneLength <= |loci| && Flat(target, 0, geneLength) + geneLength <= |loci| &&
        r.value.loci == IsTransposed(loci, geneLength, head, length,
          Flat(source, 0, geneLength), Flat(target, 0, geneLength), start, offset) &&
        ((r.value == this) <==> r.value.loci == loci) &&
        (r.value == this ==> counter.next == old(counter.next)) &&
        (r.value != this ==>
          fresh(r.value) && r.value.id == old(counter.next) && counter.next == old(counter.next) + 1)
    {
      if head < 2 {
        return Err(IndexError);
      }
      var n := geneLength;
      var s, t := Flat(source, 0, n), Flat(target, 0, n);
      GenesDisjoint(source, target, genes, n);
      var c := TransposeIsLoci(loci, n, head, length, s, t, start, offset);
      IsTransposedLayout(cfg, head, genes, loci, length, target, start, offset, s, t);
      var x := ChildIfChanged(c, counter);
      r := Ok(x);
    }

    /** `transpose_ris(length)`: `source` and `target` are the gene draws and
        `start` the draw among the function positions of gene `source`; the
        chromosome itself when there are none.  The run may reach past the
        source gene into the genes after it. */
    method TransposeRis(length: nat, source: nat, target: nat, start: nat, counter: IdCounter)
      returns (r: Chromosome)
      requires Valid() && source < genes && target < genes
      requires Flat(source, 0, geneLength) + geneLength <= |loci|
      requires HasFunction(loci, Flat(source, 0, geneLength), Flat(source, 0, geneLength) + geneLength) ==>
        Flat(source, 0, geneLength) <= start < Flat(source, 0, geneLength) + geneLength && loci[start].Func?
      modifies counter
      ensures r.Valid() && r.cfg == cfg && r.head == head && r.genes == genes && r.linker == linker
      ensures !HasFunction(loci, Flat(source, 0, geneLength), Flat(source, 0, geneLength) + geneLength) ==>
        r == this && counter.next == old(counter.next)
      ensures HasFunction(loci, Flat(source, 0, geneLength), Flat(source, 0, geneLength) + geneLength) ==>
        head <= geneLength && Flat(target, 0, geneLength) + geneLength <= |loci| &&
        r.loci == RisTransposed(loci, geneLength, head, length, Flat(target, 0, geneLength), start) &&
        (length >= 1 ==> r.loci[Flat(target, 0, geneLength)] == loci[start]) &&
        ((r == this) <==> r.loci == loci) &&
        (r == this ==> counter.next == old(counter.next)) &&
        (r != this ==> fresh(r) && r.id == old(counter.next) && counter.next == old(counter.next) + 1)
    {
      var n := geneLength;
      var s := Flat(source, 0, n);
      if !HasFunction(loci, s, s + n) {
        return this;
      }
      var t := Flat(target, 0, n);
      GenesDisjoint(target, target, genes, n);
      var c := TransposeRisLoci(loci, n, head, length, t, start);
      RisTransposedLayout(cfg, head, genes, loci, length, target, start, t);
      if length >= 1 {
        RisRoot(cfg, head, genes, loci, length, t, start);
      }
      r := ChildIfChanged(c, counter);
    }

    /** `transpose_gene()`: `s` and `t` are the two gene draws; equal draws
        return the chromosome itself, distinct ones swap the two genes. */
    method TransposeGene(s: nat, t: nat, counter: IdCounter) returns (r: Chromosome)
      requires Valid() && s < genes && t < genes
      modifies counter
      ensures r.Valid() && r.cfg == cfg && r.head == head && r.genes == genes && r.linker == linker
      ensures s == t ==> r == this && counter.next == old(counter.next)
      ensures s != t ==>
        var n := geneLength;
        Flat(s, 0, n) + n <= |loci| && Flat(t, 0, n) + n <= |loci| &&
        (forall g :: 0 <= g < genes ==>
          (Flat(g, 0, n) + n <= |r.loci| &&
           GeneOf(r.loci, n, g) ==
             if g == s then GeneOf(loci, n, t) else if g == t then GeneOf(loci, n, s) else GeneOf(loci, n, g))) &&
        ((r == this) <==> GeneOf(loci, n, s) == GeneOf(loci, n, t)) &&
        (r == this ==> counter.next == old(counter.next)) &&
        (r != this ==> fresh(r) && r.id == old(counter.next) && counter.next == old(counter.next) + 1)
    {
      if s == t {
        return this;
      }
      var n := geneLength;
      SwapEffect(loci, n, genes, s, t);
      var c := SwapLoci(loci, n, Flat(s, 0, n), Flat(t, 0, n));
      SwapLayout(cfg, head, genes, loci, s, t);
      r := ChildIfChanged(c, counter);
    }

    /** Two chromosomes of one class and shape, as every crossover assumes. */
    ghost predicate Compatible(other: Chromosome)
    {
      Valid() && other.Valid() && other.cfg == cfg && other.head == head && other.genes == genes
    }

    /** `crossover_one_point(other)`: `index` is the draw of
        `random.randint(0, len(self) - 1)`; the children are
        `self[:index] + other[index:]` and the converse, both children of
        this chromosome. */
    method CrossoverOnePoint(other: Chromosome, index: nat, counter: IdCounter)
      returns (c1: Chromosome, c2: Chromosome)
      requires Compatible(other) && index < |loci|
      modifies counter
      ensures fresh(c1) && fresh(c2) && c1.Valid() && c2.Valid()
      ensures c1.cfg == c2.cfg == cfg && c1.head == c2.head == head && c1.genes == c2.genes == genes &&
        c1.linker == c2.linker == linker
      ensures c1.loci == Crossed(loci, other.loci, index, |loci|)
      ensures c2.loci == Crossed(other.loci, loci, index, |loci|)
      ensures c1.id == old(counter.next) && c2.id == old(counter.next) + 1 && counter.next == old(counter.next) + 2
    {
      var child1 := loci[..index] + other.loci[index..];
      var child2 := other.loci[..index] + loci[index..];
      assert child1 == Crossed(loci, other.loci, index, |loci|);
      assert child2 == Crossed(other.loci, loci, index, |loci|);
      CrossedLayout(cfg, head, genes, loci, other.loci, index, |loci|);
      CrossedLayout(cfg, head, genes, other.loci, loci, index, |loci|);
      c1 := Child(child1, counter);
      c2 := Child(child2, counter);
    }

    /** `crossover_two_point(other)`: `i1` and `i2` are the two distinct
        positions of `random.sample(xrange(len(self)), 2)`, which raises
        `ValueError` for fewer than two loci. */
    method CrossoverTwoPoint(other: Chromosome, i1: nat, i2: nat, counter: IdCounter)
      returns (r: Result<(Chromosome, Chromosome)>)
      requires Compatible(other)
      requires |loci| >= 2 ==> i1 < |loci| && i2 < |loci| && i1 != i2
      modifies counter
      ensures |loci| < 2 ==> r == Err(ValueError) && counter.next == old(counter.next)
      ensures |loci| >= 2 ==>
        r.Ok? && fresh(r.value.0) && fresh(r.value.1) && r.value.0.Valid() && r.value.1.Valid() &&
        r.value.0.cfg == cfg && r.value.0.head == head && r.value.0.genes == genes &&
        r.value.1.cfg == cfg && r.value.1.head == head && r.value.1.genes == genes &&
        r.value.0.linker == linker && r.value.1.linker == linker &&
        Min(i1, i2) < Max(i1, i2) < |loci| &&
        r.value.0.loci == Crossed(loci, other.loci, Min(i1, i2), Max(i1, i2)) &&
        r.value.1.loci == Crossed(other.loci, loci, Min(i1, i2), Max(i1, i2)) &&
        r.value.0.id == old(counter.next) && r.value.1.id == old(counter.next) + 1 &&
        counter.next == old(counter.next) + 2
    {
      if |loci| < 2 {
        return Err(ValueError);
      }
      var lo, hi := Min(i1, i2), Max(i1, i2);
      CrossedLayout(cfg, head, genes, loci, other.loci, lo, hi);
      CrossedLayout(cfg, head, genes, other.loci, loci, lo, hi);
      var x1 := Child(Crossed(loci, other.loci, lo, hi), counter);
      var x2 := Child(Crossed(other.loci, loci, lo, hi), counter);
      r := Ok((x1, x2));
    }

    /** `crossover_gene(other)`: the parents exchange gene `gene`, a draw
        among the gene starts; both children are new. */
    method CrossoverGene(other: Chromosome, gene: nat, counter: IdCounter)
      returns (c1: Chromosome, c2: Chromosome)
      requires Compatible(other) && gene < genes
      modifies counter
      ensures fresh(c1) && fresh(c2) && c1.Valid() && c2.Valid()
      ensures c1.cfg == c2.cfg == cfg && c1.head == c2.head == head && c1.genes == c2.genes == genes &&
        c1.linker == c2.linker == linker
      ensures Flat(gene, 0, geneLength) + geneLength <= |loci|
      ensures c1.loci == Crossed(loci, other.loci, Flat(gene, 0, geneLength), Flat(gene, 0, geneLength) + geneLength)
      ensures c2.loci == Crossed(other.loci, loci, Flat(gene, 0, geneLength), Flat(gene, 0, geneLength) + geneLength)
      ensures c1.id == old(counter.next) && c2.id == old(counter.next) + 1 && counter.next == old(counter.next) + 2
    {
      var n := geneLength;
      GenesDisjoint(gene, gene, genes, n);
      var i1 := Flat(gene, 0, n);
      var i2 := i1 + n;
      CrossedLayout(cfg, head, genes, loci, other.loci, i1, i2);
      CrossedLayout(cfg, head, genes, other.loci, loci, i1, i2);
      c1 := Child(Crossed(loci, other.loci, i1, i2), counter);
      c2 := Child(Crossed(other.loci, loci, i1, i2), counter);
    }
  }
}
