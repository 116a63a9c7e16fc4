/** `KarvaGene` of branch 0.2: a gene object holding its alleles, its head
    length and the index of its last coding locus, evaluated by the reverse
    scan.  `derive`, slicing and iteration are used by the 0.2 chromosome but
    are not in the gene's source; `Derive` models the one contract every call
    site relies on. */
module Gene {
  import opened Symbols
  import opened Karva
  import opened Loci

  /** Every replacement `(i, run)` fits inside a gene of `n` loci. */
  predicate Fits(n: nat, reps: seq<(nat, seq<Symbol>)>)
  {
    forall r :: r in reps ==> r.0 + |r.1| <= n
  }

  /** The replacements applied one after the other. */
  function OverwriteAll(a: seq<Symbol>, reps: seq<(nat, seq<Symbol>)>): (r: seq<Symbol>)
    requires Fits(|a|, reps)
    ensures |r| == |a|
    decreases |reps|
  {
    if reps == [] then a
    else
      assert reps[0] in reps;
      OverwriteAll(Overwrite(a, reps[0].0, reps[0].1), reps[1..])
  }

  class KarvaGene {
    const alleles: seq<Symbol>
    const head: nat
    /** Index of the last coding locus (not a length). */
    const coding: nat

    ghost predicate Valid()
    {
      |alleles| >= 1 && Open(alleles, |alleles|) <= 0 &&
      coding + 1 == CodingLength(alleles)
    }

    /** `KarvaGene.__init__`: stores the alleles and runs the breadth-first
        count to find the coding region.  The count stays inside the gene
        because of the head/tail sizing. */
    constructor (alleles: seq<Symbol>, head: nat, ghost m: nat)
      requires Sized(alleles, head, m)
      ensures this.alleles == alleles && this.head == head
      ensures Valid()
      ensures coding < |alleles|
      ensures Closed(alleles, coding + 1)
    {
      SizedExhausts(alleles, head, m);
      assert alleles[0..|alleles|] == alleles;
      var c := CountCoding(alleles, 0, |alleles|, head, m);
      ClosedUnique(alleles, c + 1, CodingLength(alleles));
      this.alleles := alleles;
      this.head := head;
      this.coding := c;
    }

    /** `KarvaGene.__len__`: the allele count. */
    function Length(): nat
    {
      |alleles|
    }

    /** `KarvaGene.__call__`: seeds the evaluation list from the alleles and
        scans it in reverse.  The result is the value of the breadth-first
        decoded tree. */
    method Call(obj: string -> Value, apply: (Symbol, seq<Value>) -> Value) returns (r: Value)
      requires Valid()
      ensures r == EvalTree(Decode(alleles), Seed(obj), apply)
    {
      var n := |alleles|;
      var evaluation := new Value[n](i requires 0 <= i < n => Seed(obj)(alleles[i]));
      assert alleles[0..n] == alleles;
      Scan(evaluation, alleles, 0, n, coding, Seed(obj), apply);
      r := evaluation[0];
    }

    /** `gene.derive(replacements)`: a new gene whose loci are this gene's
        with the replacements written over them. */
    method Derive(reps: seq<(nat, seq<Symbol>)>, ghost m: nat) returns (r: KarvaGene)
      requires Fits(|alleles|, reps)
      requires Sized(OverwriteAll(alleles, reps), head, m)
      ensures fresh(r) && r.Valid()
      ensures r.alleles == OverwriteAll(alleles, reps) && r.head == head
    {
      r := new KarvaGene(OverwriteAll(alleles, reps), head, m);
    }
  }

  /** `len(gene)` of a gene of a chromosome class is the class's gene length
      `head + tail`, and the coding region ends inside it. */
  lemma LengthIsGeneLength(cfg: Config, g: KarvaGene)
    requires g.Valid() && AllelesOk(cfg, g.head, g.alleles)
    ensures g.Length() == GeneLength(g.head, cfg.MaxArity())
    ensures g.coding < g.Length()
  {
    assert Closed(g.alleles, CodingLength(g.alleles));
  }
}
