/** The trunk chromosome: the flat list of the 0.1.2 snapshot, whose
    terminals are all attribute names read off the evaluated object.  Its
    operators are point mutation of a single locus and the three
    crossovers, and every one of them returns new children. */
module TrunkChromosome {
  import opened Symbols
  import opened Karva
  import opened Loci
  import opened PyList
  import opened Ids
  import opened Positions
  import opened FlatList

  /** The Python exceptions the operations raise: `len(self) / self.genes`
      with no genes, `random.sample` of two out of fewer, and
      `getattr(obj, gene)` with a terminal that is not an attribute name. */
  datatype Error = ZeroDivisionError | ValueError | TypeError
  datatype Result<T> = Ok(value: T) | Err(error: Error)

  /** Every terminal of the list is an attribute name, as `evaluate`
      assumes. */
  predicate Named(loci: seq<Symbol>)
  {
    forall p :: 0 <= p < |loci| ==> !loci[p].Const?
  }

  // ---------------------------------------------------------------------
  // `mutate`

  /** The list after `chromosome[start + index] = gene`, as gene `g`
      overwritten with its mutated copy. */
  lemma PointIsOverwrite(loci: seq<Symbol>, n: nat, g: nat, f: nat, index: nat, pick: Symbol)
    requires f == Flat(g, 0, n) && f + n <= |loci| && index < n
    ensures loci[f + index := pick] == Overwrite(loci, f, GeneOf(loci, n, g)[index := pick])
  {
    var x := GeneOf(loci, n, g)[index := pick];
    assert forall k :: 0 <= k < n ==> x[k] == if k == index then pick else loci[f + k];
  }

  /** Point mutation changes locus `index` of gene `g` and nothing else. */
  lemma PointGenes(loci: seq<Symbol>, n: nat, count: nat, g: nat, f: nat, index: nat, pick: Symbol, h: nat)
    requires |loci| == Flat(count, 0, n) && g < count && h < count && index < n
    requires f == Flat(g, 0, n)
    ensures f + index < |loci| && Flat(h, 0, n) + n <= |loci|
    ensures GeneOf(loci[f + index := pick], n, h) ==
      if h == g then GeneOf(loci, n, g)[index := pick] else GeneOf(loci, n, h)
  {
    GenesDisjoint(g, h, count, n);
    PointIsOverwrite(loci, n, g, f, index, pick);
    GeneOfOverwrite(loci, n, count, g, GeneOf(loci, n, g)[index := pick], h);
  }

  /** A locus drawn from its position's pool keeps the layout. */
  lemma PointLayout(cfg: Config, head: nat, count: nat, loci: seq<Symbol>, g: nat, f: nat,
                    index: nat, pick: Symbol)
    requires Layout(cfg, head, count, loci) && g < count && index < GeneLength(head, cfg.MaxArity())
    requires f == Flat(g, 0, GeneLength(head, cfg.MaxArity()))
    requires cfg.Allowed(head, index, pick)
    ensures f + index < |loci| && Layout(cfg, head, count, loci[f + index := pick])
  {
    var n := GeneLength(head, cfg.MaxArity());
    GeneInside(g, count, n);
    LocusAt(g, index, n);
    var r := loci[f + index := pick];
    forall p | 0 <= p < |r|
      ensures cfg.Allowed(head, DivMod(p, n).1, r[p])
    {
      if p != f + index {
        assert r[p] == loci[p];
      }
    }
  }

  /** Point mutation keeps the layout and changes one locus of one gene. */
  lemma PointEffect(cfg: Config, head: nat, count: nat, loci: seq<Symbol>, g: nat, f: nat,
                    index: nat, pick: Symbol)
    requires Layout(cfg, head, count, loci) && g < count && index < GeneLength(head, cfg.MaxArity())
    requires f == Flat(g, 0, GeneLength(head, cfg.MaxArity()))
    requires cfg.Allowed(head, index, pick)
    ensures f + index < |loci| && Layout(cfg, head, count, loci[f + index := pick])
    ensures forall h :: 0 <= h < count ==>
      Flat(h, 0, GeneLength(head, cfg.MaxArity())) + GeneLength(head, cfg.MaxArity()) <= |loci| &&
      GeneOf(loci[f + index := pick], GeneLength(head, cfg.MaxArity()), h) ==
        if h == g then GeneOf(loci, GeneLength(head, cfg.MaxArity()), g)[index := pick]
        else GeneOf(loci, GeneLength(head, cfg.MaxArity()), h)
  {
    var n := GeneLength(head, cfg.MaxArity());
    PointLayout(cfg, head, count, loci, g, f, index, pick);
    forall h | 0 <= h < count
      ensures Flat(h, 0, n) + n <= |loci| &&
        GeneOf(loci[f + index := pick], n, h) ==
          if h == g then GeneOf(loci, n, g)[index := pick] else GeneOf(loci, n, h)
    {
      PointGenes(loci, n, count, g, f, index, pick, h);
    }
  }

  class Chromosome {
    /** The class's `functions` and `terminals`. */
    const cfg: Config
    /** `self.chromosome`, every gene in order. */
    const loci: seq<Symbol>
    /** `self.head`, the head length of every gene. */
    const head: nat
    /** `self.genes`, the gene count. */
    const genes: nat
    /** `self.linker`, applied to the gene values. */
    const linker: seq<Value> -> Value
    /** `self._gene_length`. */
    const geneLength: nat
    /** The organism number `id`. */
    const id: nat
    /** `self.coding`: the absolute index of each gene's last coding locus. */
    const coding: seq<nat>
    /** `self._eval`, the buffer `evaluate` works in. */
    const eval: array<Value>

    ghost predicate Valid()
    {
      Layout(cfg, head, genes, loci) && geneLength == GeneLength(head, cfg.MaxArity()) &&
      CodingOk(loci, geneLength, genes, coding) && eval.Length == |loci|
    }

    /** `__init__`: the gene length is the list length over the gene count,
        the organism number is taken from the class counter, and the coding
        tuple comes from the arity count of each gene.  The buffer's initial
        contents are never read: `evaluate` seeds every slot. */
    constructor (cfg: Config, loci: seq<Symbol>, head: nat, genes: nat, linker: seq<Value> -> Value,
                 counter: IdCounter)
      requires Layout(cfg, head, genes, loci)
      modifies counter
      ensures Valid() && fresh(eval)
      ensures this.cfg == cfg && this.loci == loci && this.head == head && this.genes == genes &&
        this.linker == linker
      ensures id == old(counter.next) && counter.next == old(counter.next) + 1
    {
      var n := GeneLength(head, cfg.MaxArity());
      FlatQuotient(genes, n);
      this.cfg := cfg;
      this.loci := loci;
      this.head := head;
      this.genes := genes;
      this.linker := linker;
      this.geneLength := |loci| / genes;
      this.id := counter.next;
      var coding := CodingIndexes(cfg, head, genes, loci);
      this.coding := coding;
      this.eval := new Value[|loci|](i => None);
      counter.next := counter.next + 1;
    }

    /** One chromosome drawn by `generate`: `count` genes whose loci were
        drawn as `picks` (head from all symbols, tail from the terminals).
        No genes is the `ZeroDivisionError` of `len(self) / self.genes`,
        raised before an organism number is taken. */
    static method Generate(cfg: Config, head: nat, count: nat, linker: seq<Value> -> Value,
                           picks: seq<seq<Symbol>>, counter: IdCounter)
      returns (r: Result<Chromosome>)
      requires cfg.Ok() && |picks| == count
      requires forall g :: 0 <= g < count ==> AllelesOk(cfg, head, picks[g])
      modifies counter
      ensures count == 0 ==> r == Err(ZeroDivisionError) && counter.next == old(counter.next)
      ensures count >= 1 ==>
        r.Ok? && fresh(r.value) && r.value.Valid() &&
        r.value.cfg == cfg && r.value.head == head && r.value.genes == count && r.value.linker == linker &&
        r.value.loci == Concat(picks) &&
        r.value.id == old(counter.next) && counter.next == old(counter.next) + 1
    {
      var c := Extend(cfg, head, picks);
      if count == 0 {
        return Err(ZeroDivisionError);
      }
      var x := new Chromosome(cfg, c, head, count, linker, counter);
      r := Ok(x);
    }

    /** `_child`: a new chromosome of the same class, head, gene count and
        linker over `c`, numbered after every chromosome before it. */
    method Child(c: seq<Symbol>, counter: IdCounter) returns (r: Chromosome)
      requires Valid() && Layout(cfg, head, genes, c)
      modifies counter
      ensures fresh(r) && r.Valid() && r.cfg == cfg && r.loci == c && r.head == head &&
        r.genes == genes && r.linker == linker
      ensures r.id == old(counter.next) && counter.next == old(counter.next) + 1
    {
      r := new Chromosome(cfg, c, head, genes, linker, counter);
    }

    /** `evaluate(obj)`: the buffer is seeded with `None` for a function and
        `getattr(obj, name)` for a terminal, which raises `TypeError` at the
        first terminal that is not a name; then each gene is scanned in
        reverse up to its coding index and the linker combines the values
        left at the gene starts, the values of the decoded gene trees. */
    method Evaluate(obj: string -> Value, apply: (Symbol, seq<Value>) -> Value) returns (r: Result<Value>)
      requires Valid()
      modifies eval
      ensures r.Err? <==> !Named(loci)
      ensures r.Err? ==> r.error == TypeError
      ensures r.Ok? ==>
        r.value == linker(Expressed(cfg, head, genes, loci, Seed(obj), apply)) &&
        Done(eval[..], geneLength, genes, Expressed(cfg, head, genes, loci, Seed(obj), apply))
    {
      var i := 0;
      while i < eval.Length
        invariant i <= eval.Length
        invariant forall j :: 0 <= j < i ==> !loci[j].Const? && eval[j] == Seed(obj)(loci[j])
      {
        match loci[i] {
          case Func(_, _) => eval[i] := None;
          case Const(_) => return Err(TypeError);
          case Attr(name) => eval[i] := obj(name);
        }
        i := i + 1;
      }
      var values := ScanGenes(eval, loci, geneLength, genes, coding, Seed(obj), apply);
      ValuesAreExpressed(cfg, head, genes, loci, coding, Seed(obj), apply);
      r := Ok(linker(values));
    }

    /** `mutate()`: gene `g` is the draw among the gene starts, `index` the
        draw of `random.randint(0, gene_length - 1)` and `pick` the symbol
        then drawn, from the terminals in a tail and from all symbols in a
        head.  The child differs from this chromosome in that locus only. */
    method Mutate(g: nat, index: nat, pick: Symbol, counter: IdCounter) returns (r: Chromosome)
      requires Valid() && g < genes && index < geneLength && cfg.Allowed(head, index, pick)
      modifies counter
      ensures fresh(r) && r.Valid() && r.cfg == cfg && r.head == head && r.genes == genes &&
        r.linker == linker
      ensures Flat(g, 0, geneLength) + index < |loci| &&
        r.loci == loci[Flat(g, 0, geneLength) + index := pick]
      ensures forall h :: 0 <= h < genes ==>
        Flat(h, 0, geneLength) + geneLength <= |loci| &&
        GeneOf(r.loci, geneLength, h) ==
          if h == g then GeneOf(loci, geneLength, g)[index := pick] else GeneOf(loci, geneLength, h)
      ensures r.id == old(counter.next) && counter.next == old(counter.next) + 1
    {
      var start := Flat(g, 0, geneLength);
      PointEffect(cfg, head, genes, loci, g, start, index, pick);
      var c := loci[start + index := pick];
      r := Child(c, counter);
    }

    /** Two chromosomes of one class and shape, as every crossover assumes. */
    ghost predicate Compatible(other: Chromosome)
    {
      Valid() && other.Valid() && other.cfg == cfg && other.head == head && other.genes == genes
    }

    /** `crossover_one_point(other)`: `index` is the draw of
        `random.randint(0, len(self) - 1)`; the children are
        `self[:index] + other[index:]` and the converse, both children of
        this chromosome. */
    method CrossoverOnePoint(other: Chromosome, index: nat, counter: IdCounter)
      returns (c1: Chromosome, c2: Chromosome)
      requires Compatible(other) && index < |loci|
      modifies counter
      ensures fresh(c1) && fresh(c2) && c1.Valid() && c2.Valid()
      ensures c1.cfg == c2.cfg == cfg && c1.head == c2.head == head && c1.genes == c2.genes == genes &&
        c1.linker == c2.linker == linker
      ensures c1.loci == Crossed(loci, other.loci, index, |loci|)
      ensures c2.loci == Crossed(other.loci, loci, index, |loci|)
      ensures c1.id == old(counter.next) && c2.id == old(counter.next) + 1 && counter.next == old(counter.next) + 2
    {
      var child1 := loci[..index] + other.loci[index..];
      var child2 := other.loci[..index] + loci[index..];
      assert child1 == Crossed(loci, other.loci, index, |loci|);
      assert child2 == Crossed(other.loci, loci, index, |loci|);
      CrossedLayout(cfg, head, genes, loci, other.loci, index, |loci|);
      CrossedLayout(cfg, head, genes, other.loci, loci, index, |loci|);
      c1 := Child(child1, counter);
      c2 := Child(child2, counter);
    }

    /** `crossover_two_point(other)`: `i1` and `i2` are the two distinct
        positions of `random.sample(xrange(len(self)), 2)`, which raises
        `ValueError` for fewer than two loci. */
    method CrossoverTwoPoint(other: Chromosome, i1: nat, i2: nat, counter: IdCounter)
      returns (r: Result<(Chromosome, Chromosome)>)
      requires Compatible(other)
      requires |loci| >= 2 ==> i1 < |loci| && i2 < |loci| && i1 != i2
      modifies counter
      ensures |loci| < 2 ==> r == Err(ValueError) && counter.next == old(counter.next)
      ensures |loci| >= 2 ==>
        r.Ok? && fresh(r.value.0) && fresh(r.value.1) && r.value.0.Valid() && r.value.1.Valid() &&
        r.value.0.cfg == cfg && r.value.0.head == head && r.value.0.genes == genes &&
        r.value.1.cfg == cfg && r.value.1.head == head && r.value.1.genes == genes &&
        r.value.0.linker == linker && r.value.1.linker == linker &&
        Min(i1, i2) < Max(i1, i2) < |loci| &&
        r.value.0.loci == Crossed(loci, other.loci, Min(i1, i2), Max(i1, i2)) &&
        r.value.1.loci == Crossed(other.loci, loci, Min(i1, i2), Max(i1, i2)) &&
        r.value.0.id == old(counter.next) && r.value.1.id == old(counter.next) + 1 &&
        counter.next == old(counter.next) + 2
    {
      if |loci| < 2 {
        return Err(ValueError);
      }
      var lo, hi := Min(i1, i2), Max(i1, i2);
      CrossedLayout(cfg, head, genes, loci, other.loci, lo, hi);
      CrossedLayout(cfg, head, genes, other.loci, loci, lo, hi);
      var x1 := Child(Crossed(loci, other.loci, lo, hi), counter);
      var x2 := Child(Crossed(other.loci, loci, lo, hi), counter);
      r := Ok((x1, x2));
    }

    /** `crossover_gene(other)`: the parents exchange gene `gene`, the draw
        among the gene starts; both children are new. */
    method CrossoverGene(other: Chromosome, gene: nat, counter: IdCounter)
      returns (c1: Chromosome, c2: Chromosome)
      requires Compatible(other) && gene < genes
      modifies counter
      ensures fresh(c1) && fresh(c2) && c1.Valid() && c2.Valid()
      ensures c1.cfg == c2.cfg == cfg && c1.head == c2.head == head && c1.genes == c2.genes == genes &&
        c1.linker == c2.linker == linker
      ensures Flat(gene, 0, geneLength) + geneLength <= |loci|
      ensures c1.loci == Crossed(loci, other.loci, Flat(gene, 0, geneLength), Flat(gene, 0, geneLength) + geneLength)
      ensures c2.loci == Crossed(other.loci, loci, Flat(gene, 0, geneLength), Flat(gene, 0, geneLength) + geneLength)
      ensures c1.id == old(counter.next) && c2.id == old(counter.next) + 1 && counter.next == old(counter.next) + 2
    {
      var n := geneLength;
      GenesDisjoint(gene, gene, genes, n);
      var i1 := Flat(gene, 0, n);
      var i2 := i1 + n;
      CrossedLayout(cfg, head, genes, loci, other.loci, i1, i2);
      CrossedLayout(cfg, head, genes, other.loci, loci, i1, i2);
      c1 := Child(Crossed(loci, other.loci, i1, i2), counter);
      c2 := Child(Crossed(other.loci, loci, i1, i2), counter);
    }
  }
}
