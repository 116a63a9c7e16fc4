/** The 0.1-beta population: a fixed number of chromosomes, a buffer for the
    next generation and one for the scaled fitness, and the `cycle` that
    copies the best chromosome, fills the other slots by a roulette walk
    over sorted spins, varies every slot but the first and exchanges loci
    between pairs of them.

    The chromosome type is a parameter: a chromosome is only asked for its
    (cached) fitness, and the operators are given as functions.  Fitness,
    the population mean and every random draw are real numbers handed in. */
module Population {
  import opened Positions

  datatype Error = ValueError
  datatype Result<T> = Ok(value: T) | Err(error: Error)

  // ---------------------------------------------------------------------
  // The display header of `__init__`

  const Digits: string := "0123456789"

  /** `s * k`. */
  function Repeat(s: string, k: nat): (r: string)
    ensures |r| == Flat(k, 0, |s|)
  {
    if k == 0 then [] else Repeat(s, k - 1) + s
  }

  /** Character `d` of copy `q` of `s * k` is `s[d]`. */
  lemma {:induction false} RepeatAt(s: string, k: nat, q: nat, d: nat)
    requires q < k && d < |s|
    ensures Flat(q, d, |s|) < |Repeat(s, k)| && Repeat(s, k)[Flat(q, d, |s|)] == s[d]
    decreases k
  {
    FlatShift(k - 1, 0, |s|);
    if q < k - 1 {
      RepeatAt(s, k - 1, q, d);
      FlatLess(q, d, k - 1, 0, |s|);
    } else {
      FlatShift(q, d, |s|);
    }
  }

  /** `'-' * n`. */
  function Dashes(n: nat): (r: string)
    ensures |r| == n
  {
    seq(n, _ => '-')
  }

  /** `self.header` for chromosomes of `l` loci:
      `digits * (l / 10) + digits[:l % 10]`, a newline, and as many dashes. */
  function Header(l: nat): string
  {
    var digits := Repeat(Digits, l / 10) + Digits[..l % 10];
    digits + "\n" + Dashes(|digits|)
  }

  /** The header numbers the loci by their last digit, then underlines them. */
  lemma HeaderShape(l: nat)
    ensures |Header(l)| == l + 1 + l
    ensures forall i :: 0 <= i < l ==> Header(l)[i] == Digits[i % 10]
    ensures Header(l)[l] == '\n'
    ensures forall i :: l < i < |Header(l)| ==> Header(l)[i] == '-'
  {
    var q, d := l / 10, l % 10;
    DivFlat(l, 10);
    FlatShift(q, d, 10);
    var digits := Repeat(Digits, q) + Digits[..d];
    assert |digits| == l;
    forall i | 0 <= i < l
      ensures Header(l)[i] == Digits[i % 10]
    {
      DivFlat(i, 10);
      FlatLess(i / 10, i % 10, q, d, 10);
      if i / 10 < q {
        RepeatAt(Digits, q, i / 10, i % 10);
        assert digits[i] == Repeat(Digits, q)[i];
      } else {
        FlatShift(q, i % 10, 10);
        assert digits[i] == Digits[..d][i % 10];
      }
    }
  }

  // ---------------------------------------------------------------------
  // `best`

  /** The index `max(reversed(population), key=fitness)` settles on: a
      largest fitness, the last one among ties. */
  function BestIndex(fs: seq<real>): (r: nat)
    requires |fs| >= 1
    ensures r < |fs|
    ensures forall j :: 0 <= j < |fs| ==> fs[j] <= fs[r]
    ensures forall j :: r < j < |fs| ==> fs[j] < fs[r]
  {
    if |fs| == 1 then 0
    else
      var b := BestIndex(fs[..|fs| - 1]);
      assert forall j :: 0 <= j < |fs| - 1 ==> fs[..|fs| - 1][j] == fs[j];
      if fs[|fs| - 1] >= fs[b] then |fs| - 1 else b
  }

  /** The fitness of each chromosome, in order. */
  function Fitnesses<C>(fitness: C -> real, pop: seq<C>): (fs: seq<real>)
    ensures |fs| == |pop|
  {
    seq(|pop|, i requires 0 <= i < |pop| => fitness(pop[i]))
  }

  // ---------------------------------------------------------------------
  // Fitness scaling and the roulette walk

  /** `exclusion_level * fitness / mean`, or without the mean when it is
      zero (the `ZeroDivisionError` branch). */
  function Weight(exclusion: real, f: real, mean: real): real
  {
    if mean == 0.0 then exclusion * f else exclusion * f / mean
  }

  function Weights(exclusion: real, fs: seq<real>, mean: real): (w: seq<real>)
    ensures |w| == |fs|
  {
    seq(|fs|, i requires 0 <= i < |fs| => Weight(exclusion, fs[i], mean))
  }

  /** With a positive mean and pressure, scaling keeps the fitness order and
      the sign: weights are not clamped at zero. */
  lemma WeightOrder(exclusion: real, f: real, g: real, mean: real)
    requires mean > 0.0 && exclusion > 0.0
    ensures f <= g <==> Weight(exclusion, f, mean) <= Weight(exclusion, g, mean)
    ensures f < 0.0 <==> Weight(exclusion, f, mean) < 0.0
  {
    assert Weight(exclusion, f, mean) * mean == exclusion * f;
    assert Weight(exclusion, g, mean) * mean == exclusion * g;
  }

  /** `sum(s)`. */
  function Sum(s: seq<real>): real
  {
    if s == [] then 0.0 else Sum(s[..|s| - 1]) + s[|s| - 1]
  }

  /** The window after the walk has reached index `j`: the weights up to
      and including `j`. */
  function Cumulative(w: seq<real>, j: nat): real
    requires j < |w|
  {
    Sum(w[..j + 1])
  }

  lemma CumulativeFirst(w: seq<real>)
    requires |w| >= 1
    ensures Cumulative(w, 0) == w[0]
  {
    assert w[..1][..0] == [];
    assert Sum(w[..1]) == Sum(w[..1][..0]) + w[..1][0];
  }

  lemma CumulativeStep(w: seq<real>, j: nat)
    requires j + 1 < |w|
    ensures Cumulative(w, j + 1) == Cumulative(w, j) + w[j + 1]
  {
    assert w[..j + 2][..j + 1] == w[..j + 1];
  }

  /** The first index from `j` on whose window covers `x`, or the last index
      when none does. */
  function CoverFrom(w: seq<real>, x: real, j: nat): (r: nat)
    requires j < |w|
    ensures j <= r < |w|
    ensures forall k :: j <= k < r ==> Cumulative(w, k) < x
    ensures Cumulative(w, r) >= x || (r == |w| - 1 && Cumulative(w, r) < x)
    decreases |w| - j
  {
    if Cumulative(w, j) >= x then j
    else if j + 1 == |w| then j
    else CoverFrom(w, x, j + 1)
  }

  /** The chromosome a spin `x` selects. */
  function Pick(w: seq<real>, x: real): (r: nat)
    requires |w| >= 1
    ensures r < |w|
    ensures forall k :: 0 <= k < r ==> Cumulative(w, k) < x
    ensures Cumulative(w, r) >= x || (r == |w| - 1 && Cumulative(w, r) < x)
  {
    CoverFrom(w, x, 0)
  }

  /** `Pick` is characterised by its two cases: the first covering window,
      or the last index when no window covers the spin. */
  lemma PickIs(w: seq<real>, x: real, s: nat)
    requires s < |w|
    requires forall m :: 0 <= m < s ==> Cumulative(w, m) < x
    requires Cumulative(w, s) >= x || (s == |w| - 1 && Cumulative(w, s) < x)
    ensures Pick(w, x) == s
  {

  }

  /** A larger spin never selects an earlier chromosome. */
  lemma PickMonotone(w: seq<real>, x: real, y: real)
    requires |w| >= 1 && x <= y
    ensures Pick(w, x) <= Pick(w, y)
  {

  }

  predicate Sorted(s: seq<real>)
  {
    forall i, j :: 0 <= i < j < |s| ==> s[i] <= s[j]
  }

  /** The inner loop of the walk: from `source` on, move to the first
      window covering the spin `x`; past the last weight, fall back to the
      last chromosome (the `IndexError` branch). */
  method Advance(scaled: array<real>, x: real, source: nat, window: real) returns (s: nat, win: real)
    requires source < scaled.Length && window == Cumulative(scaled[..], source)
    requires forall m :: 0 <= m < source ==> Cumulative(scaled[..], m) < x
    ensures s == Pick(scaled[..], x) && source <= s && win == Cumulative(scaled[..], s)
  {
    ghost var w := scaled[..];
    s, win := source, window;
    while win < x
      invariant source <= s < scaled.Length && win == Cumulative(w, s)
      invariant forall m :: 0 <= m < s ==> Cumulative(w, m) < x
      decreases scaled.Length - s
    {
      if s + 1 < scaled.Length {
        CumulativeStep(w, s);
        s := s + 1;
        win := win + scaled[s];
      } else {
        s := scaled.Length - 1;
        break;
      }
    }
    PickIs(w, x, s);
  }

  // ---------------------------------------------------------------------
  // Rates, draws and operators

  /** The class attributes steering `cycle`. */
  datatype Rates = Rates(exclusion: real, mutation: real, inversion: real,
                         isTransposition: real, isLengths: seq<nat>,
                         risTransposition: real, risLengths: seq<nat>,
                         geneTransposition: real,
                         onePoint: real, twoPoint: real, geneCrossover: real)

  /** The defaults of the class body, with `mutation_rate = 2.0 / l` for
      chromosomes of `l` loci. */
  function Defaults(l: nat): (r: Rates)
    requires l >= 1
    ensures r.mutation * (l as real) == 2.0
  {
    Rates(1.5, 2.0 / (l as real), 0.1, 0.1, [1, 2, 3], 0.1, [1, 2, 3], 0.1, 0.3, 0.3, 0.1)
  }

  /** The `random.random()` draws of one slot of the variation loop, and the
      transposition lengths drawn by `random.choice`. */
  datatype SlotDraws = SlotDraws(inversion: real, isTransposition: real, isLength: nat,
                                 risTransposition: real, risLength: nat, geneTransposition: real)

  /** The draw deciding one crossover and the two slots
      `random.sample(xrange(1, size), 2)` then gives. */
  datatype PairDraw = PairDraw(draw: real, i1: nat, i2: nat)

  /** The chromosome operators, applied to the chromosome in slot `i`. */
  datatype Operators<!C> = Operators(
    mutate: (nat, C, real) -> C,
    invert: (nat, C) -> C,
    transposeIs: (nat, C, nat) -> C,
    transposeRis: (nat, C, nat) -> C,
    transposeGene: (nat, C) -> C,
    crossoverOnePoint: (C, C) -> (C, C),
    crossoverTwoPoint: (C, C) -> (C, C),
    crossoverGene: (C, C) -> (C, C))

  /** `if rate and random.random() < rate`. */
  predicate Fires(rate: real, draw: real)
  {
    rate != 0.0 && draw < rate
  }

  /** The length draws come from the class's length tuples. */
  predicate LengthsDrawn(rates: Rates, d: SlotDraws)
  {
    (Fires(rates.isTransposition, d.isTransposition) ==> d.isLength in rates.isLengths) &&
    (Fires(rates.risTransposition, d.risTransposition) ==> d.risLength in rates.risLengths)
  }

  /** Two distinct slots of `1 .. size - 1`. */
  predicate PairDrawn(size: nat, d: PairDraw)
  {
    1 <= d.i1 < size && 1 <= d.i2 < size && d.i1 != d.i2
  }

  /** The crossovers that fire can draw their pairs: with fewer than three
      chromosomes `random.sample` raises `ValueError`. */
  predicate Pairable(size: nat, rates: Rates, one: PairDraw, two: PairDraw, gene: PairDraw)
  {
    size >= 3 || !(Fires(rates.onePoint, one.draw) || Fires(rates.twoPoint, two.draw) ||
                   Fires(rates.geneCrossover, gene.draw))
  }

  predicate PairsDrawn(size: nat, rates: Rates, one: PairDraw, two: PairDraw, gene: PairDraw)
  {
    (Fires(rates.onePoint, one.draw) && size >= 3 ==> PairDrawn(size, one)) &&
    (Fires(rates.twoPoint, two.draw) && size >= 3 ==> PairDrawn(size, two)) &&
    (Fires(rates.geneCrossover, gene.draw) && size >= 3 ==> PairDrawn(size, gene))
  }

  /** The variation of slot `i`: mutation, inversion, IS, RIS and gene
      transposition, each when its rate fires. */
  function Vary<C>(ops: Operators<C>, rates: Rates, d: SlotDraws, i: nat, c: C): C
  {
    var c1 := if rates.mutation != 0.0 then ops.mutate(i, c, rates.mutation) else c;
    var c2 := if Fires(rates.inversion, d.inversion) then ops.invert(i, c1) else c1;
    var c3 := if Fires(rates.isTransposition, d.isTransposition) then ops.transposeIs(i, c2, d.isLength) else c2;
    var c4 := if Fires(rates.risTransposition, d.risTransposition) then ops.transposeRis(i, c3, d.risLength) else c3;
    if Fires(rates.geneTransposition, d.geneTransposition) then ops.transposeGene(i, c4) else c4
  }

  /** One crossover over the slots: the children replace their parents. */
  function Cross<C>(s: seq<C>, fires: bool, d: PairDraw, op: (C, C) -> (C, C)): (r: seq<C>)
    requires fires ==> d.i1 < |s| && d.i2 < |s|
    ensures |r| == |s|
  {
    if fires then
      var children := op(s[d.i1], s[d.i2]);
      s[d.i1 := children.0][d.i2 := children.1]
    else s
  }

  /** `_next_pop` after elitism and the walk: the best chromosome, then the
      chromosome each sorted spin selects. */
  function Selection<C>(pop: seq<C>, fitness: C -> real, exclusion: real, mean: real, select: seq<real>)
    : (r: seq<C>)
    requires |pop| >= 1
    ensures |r| == |select| + 1
  {
    var fs := Fitnesses(fitness, pop);
    var w := Weights(exclusion, fs, mean);
    [pop[BestIndex(fs)]] + seq(|select|, k requires 0 <= k < |select| => pop[Pick(w, select[k])])
  }

  /** `_next_pop` after the variation loop: every slot but the first varied. */
  function Varied<C>(ops: Operators<C>, rates: Rates, slots: seq<SlotDraws>, s: seq<C>): (r: seq<C>)
    requires |s| == |slots| + 1
    ensures |r| == |s|
  {
    seq(|s|, i requires 0 <= i < |s| => if i == 0 then s[0] else Vary(ops, rates, slots[i - 1], i, s[i]))
  }

  /** `_next_pop` after one-point, two-point and gene crossover. */
  function Recombined<C>(ops: Operators<C>, rates: Rates, one: PairDraw, two: PairDraw, gene: PairDraw,
                         s: seq<C>): (r: seq<C>)
    requires PairsDrawn(|s|, rates, one, two, gene) && Pairable(|s|, rates, one, two, gene)
    ensures |r| == |s|
  {
    var s1 := Cross(s, Fires(rates.onePoint, one.draw), one, ops.crossoverOnePoint);
    var s2 := Cross(s1, Fires(rates.twoPoint, two.draw), two, ops.crossoverTwoPoint);
    Cross(s2, Fires(rates.geneCrossover, gene.draw), gene, ops.crossoverGene)
  }

  /** The generation `cycle` makes of `pop`. */
  function NextGeneration<C>(pop: seq<C>, fitness: C -> real, rates: Rates, mean: real,
                             ops: Operators<C>, select: seq<real>, slots: seq<SlotDraws>,
                             one: PairDraw, two: PairDraw, gene: PairDraw): (r: seq<C>)
    requires |pop| >= 1 && |select| == |slots| == |pop| - 1
    requires PairsDrawn(|pop|, rates, one, two, gene) && Pairable(|pop|, rates, one, two, gene)
    ensures |r| == |pop|
  {
    Recombined(ops, rates, one, two, gene,
      Varied(ops, rates, slots, Selection(pop, fitness, rates.exclusion, mean, select)))
  }

  // ---------------------------------------------------------------------
  // What a cycle keeps

  /** A crossover leaves slot 0 alone. */
  lemma CrossKeepsFirst<C>(s: seq<C>, fires: bool, d: PairDraw, op: (C, C) -> (C, C))
    requires |s| >= 1 && (fires ==> PairDrawn(|s|, d))
    ensures Cross(s, fires, d, op)[0] == s[0]
  {
  }

  /** Elitism: the first chromosome of the next generation is the best of
      this one, the very instance, untouched by any operator. */
  lemma ElitismKeepsBest<C>(pop: seq<C>, fitness: C -> real, rates: Rates, mean: real,
                            ops: Operators<C>, select: seq<real>, slots: seq<SlotDraws>,
                            one: PairDraw, two: PairDraw, gene: PairDraw)
    requires |pop| >= 1 && |select| == |slots| == |pop| - 1
    requires PairsDrawn(|pop|, rates, one, two, gene) && Pairable(|pop|, rates, one, two, gene)
    ensures NextGeneration(pop, fitness, rates, mean, ops, select, slots, one, two, gene)[0] ==
      pop[BestIndex(Fitnesses(fitness, pop))]
  {
    var v := Varied(ops, rates, slots, Selection(pop, fitness, rates.exclusion, mean, select));
    var s1 := Cross(v, Fires(rates.onePoint, one.draw), one, ops.crossoverOnePoint);
    var s2 := Cross(s1, Fires(rates.twoPoint, two.draw), two, ops.crossoverTwoPoint);
    CrossKeepsFirst(v, Fires(rates.onePoint, one.draw), one, ops.crossoverOnePoint);
    CrossKeepsFirst(s1, Fires(rates.twoPoint, two.draw), two, ops.crossoverTwoPoint);
    CrossKeepsFirst(s2, Fires(rates.geneCrossover, gene.draw), gene, ops.crossoverGene);
  }

  /** With cached fitness, the best fitness never decreases from one
      generation to the next. */
  lemma BestNeverDecreases<C>(pop: seq<C>, fitness: C -> real, rates: Rates, mean: real,
                              ops: Operators<C>, select: seq<real>, slots: seq<SlotDraws>,
                              one: PairDraw, two: PairDraw, gene: PairDraw)
    requires |pop| >= 1 && |select| == |slots| == |pop| - 1
    requires PairsDrawn(|pop|, rates, one, two, gene) && Pairable(|pop|, rates, one, two, gene)
    ensures var next := NextGeneration(pop, fitness, rates, mean, ops, select, slots, one, two, gene);
      Fitnesses(fitness, next)[BestIndex(Fitnesses(fitness, next))] >=
        Fitnesses(fitness, pop)[BestIndex(Fitnesses(fitness, pop))]
  {
    var next := NextGeneration(pop, fitness, rates, mean, ops, select, slots, one, two, gene);
    ElitismKeepsBest(pop, fitness, rates, mean, ops, select, slots, one, two, gene);
    assert Fitnesses(fitness, next)[0] == fitness(next[0]);
  }

  predicate AllOk<C>(ok: C -> bool, s: seq<C>)
  {
    forall i :: 0 <= i < |s| ==> ok(s[i])
  }

  lemma CrossOk<C(!new)>(ok: C -> bool, s: seq<C>, fires: bool, d: PairDraw, op: (C, C) -> (C, C))
    requires AllOk(ok, s) && (fires ==> d.i1 < |s| && d.i2 < |s|)
    requires forall a, b :: ok(a) && ok(b) ==> ok(op(a, b).0) && ok(op(a, b).1)
    ensures AllOk(ok, Cross(s, fires, d, op))
  {
  }

  lemma VaryOk<C(!new)>(ok: C -> bool, ops: Operators<C>, rates: Rates, d: SlotDraws, i: nat, c: C)
    requires forall i, c, r :: ok(c) ==> ok(ops.mutate(i, c, r))
    requires forall i, c :: ok(c) ==> ok(ops.invert(i, c))
    requires forall i, c, n :: ok(c) ==> ok(ops.transposeIs(i, c, n))
    requires forall i, c, n :: ok(c) ==> ok(ops.transposeRis(i, c, n))
    requires forall i, c :: ok(c) ==> ok(ops.transposeGene(i, c))
    requires ok(c)
    ensures ok(Vary(ops, rates, d, i, c))
  {
  }

  /** Chromosomes that every operator keeps well formed stay well formed
      through a cycle. */
  lemma GenerationOk<C(!new)>(ok: C -> bool, pop: seq<C>, fitness: C -> real, rates: Rates, mean: real,
                        ops: Operators<C>, select: seq<real>, slots: seq<SlotDraws>,
                        one: PairDraw, two: PairDraw, gene: PairDraw)
    requires |pop| >= 1 && |select| == |slots| == |pop| - 1
    requires PairsDrawn(|pop|, rates, one, two, gene) && Pairable(|pop|, rates, one, two, gene)
    requires forall i, c, r :: ok(c) ==> ok(ops.mutate(i, c, r))
    requires forall i, c :: ok(c) ==> ok(ops.invert(i, c))
    requires forall i, c, n :: ok(c) ==> ok(ops.transposeIs(i, c, n))
    requires forall i, c, n :: ok(c) ==> ok(ops.transposeRis(i, c, n))
    requires forall i, c :: ok(c) ==> ok(ops.transposeGene(i, c))
    requires forall a, b :: ok(a) && ok(b) ==> ok(ops.crossoverOnePoint(a, b).0) && ok(ops.crossoverOnePoint(a, b).1)
    requires forall a, b :: ok(a) && ok(b) ==> ok(ops.crossoverTwoPoint(a, b).0) && ok(ops.crossoverTwoPoint(a, b).1)
    requires forall a, b :: ok(a) && ok(b) ==> ok(ops.crossoverGene(a, b).0) && ok(ops.crossoverGene(a, b).1)
    requires AllOk(ok, pop)
    ensures AllOk(ok, NextGeneration(pop, fitness, rates, mean, ops, select, slots, one, two, gene))
  {
    var fs := Fitnesses(fitness, pop);
    var sel := Selection(pop, fitness, rates.exclusion, mean, select);
    assert AllOk(ok, sel) by {
      forall i | 0 <= i < |sel|
        ensures ok(sel[i])
      {
        if i == 0 {
          assert sel[0] == pop[BestIndex(fs)];
        } else {
          var w := Weights(rates.exclusion, fs, mean);
          assert sel[i] == pop[Pick(w, select[i - 1])];
        }
      }
    }
    var v := Varied(ops, rates, slots, sel);
    assert AllOk(ok, v) by {
      forall i | 0 <= i < |v|
        ensures ok(v[i])
      {
        if i > 0 {
          VaryOk(ok, ops, rates, slots[i - 1], i, sel[i]);
        }
      }
    }
    var s1 := Cross(v, Fires(rates.onePoint, one.draw), one, ops.crossoverOnePoint);
    var s2 := Cross(s1, Fires(rates.twoPoint, two.draw), two, ops.crossoverTwoPoint);
    CrossOk(ok, v, Fires(rates.onePoint, one.draw), one, ops.crossoverOnePoint);
    CrossOk(ok, s1, Fires(rates.twoPoint, two.draw), two, ops.crossoverTwoPoint);
    CrossOk(ok, s2, Fires(rates.geneCrossover, gene.draw), gene, ops.crossoverGene);
  }

  // ---------------------------------------------------------------------
  // The population object

  class Population<C> {
    /** `self.size`, the number of chromosomes. */
    const size: nat
    /** `self.head` and `self.genes`, the shape passed to `generate`. */
    const head: nat
    const genes: nat
    /** The cached fitness of a chromosome. */
    const fitness: C -> real
    /** The class attributes, with the mutation rate `__init__` sets. */
    const rates: Rates
    /** `self.header`, for display. */
    const header: string
    /** `self.population` and `self._next_pop`. */
    var population: array<C>
    var nextPop: array<C>
    /** `self._scaled`. */
    const scaled: array<real>
    /** The generation number `age`. */
    var age: nat
    /** `self.mean` from the fitness statistics. */
    var mean: real

    ghost predicate Valid()
      reads this
    {
      size >= 1 && population.Length == size && nextPop.Length == size && scaled.Length == size &&
      population != nextPop && scaled as object != population && scaled as object != nextPop
    }

    /** `__init__` for a generated `initial` population of chromosomes of
        `length` loci, whose fitness statistics give `mean`.  The slots of
        the next-generation buffer start as placeholders, all written by the
        next `cycle` before they are read. */
    constructor (size: nat, head: nat, genes: nat, initial: seq<C>, length: nat,
                 fitness: C -> real, mean: real)
      requires size >= 1 && |initial| == size && length >= 1
      ensures Valid() && fresh(population) && fresh(nextPop) && fresh(scaled)
      ensures this.size == size && this.head == head && this.genes == genes && this.fitness == fitness
      ensures population[..] == initial && age == 0 && this.mean == mean
      ensures header == Header(length) && rates == Defaults(length)
    {
      this.size := size;
      this.head := head;
      this.genes := genes;
      this.fitness := fitness;
      this.rates := Defaults(length);
      this.header := Header(length);
      this.population := new C[size](i requires 0 <= i < size => initial[i]);
      this.nextPop := new C[size](_ => initial[0]);
      this.scaled := new real[size](_ => 0.0);
      this.age := 0;
      this.mean := mean;
    }

    /** `Population(cls, size, ...)`: an empty population is the
        `ValueError` raised when the header reads its first chromosome. */
    static method Create(size: nat, head: nat, genes: nat, initial: seq<C>, length: nat,
                         fitness: C -> real, mean: real)
      returns (r: Result<Population<C>>)
      requires |initial| == size && (size >= 1 ==> length >= 1)
      ensures size == 0 <==> r.Err?
      ensures r.Err? ==> r.error == ValueError
      ensures r.Ok? ==>
        fresh(r.value) && r.value.Valid() && r.value.size == size &&
        r.value.population[..] == initial && r.value.age == 0 &&
        r.value.rates.mutation * (length as real) == 2.0 && r.value.header == Header(length)
    {
      if size == 0 {
        return Err(ValueError);
      }
      var p := new Population(size, head, genes, initial, length, fitness, mean);
      r := Ok(p);
    }

    /** The `_scaled` loop: every chromosome's scaled fitness. */
    method ScaleFitness()
      requires Valid()
      modifies scaled
      ensures scaled[..] == Weights(rates.exclusion, Fitnesses(fitness, population[..]), mean)
    {
      var i := 0;
      while i < size
        invariant i <= size
        invariant forall j :: 0 <= j < i ==>
          scaled[j] == Weight(rates.exclusion, fitness(population[j]), mean)
      {
        if mean == 0.0 {
          scaled[i] := rates.exclusion * fitness(population[i]);
        } else {
          scaled[i] := rates.exclusion * fitness(population[i]) / mean;
        }
        i := i + 1;
      }
    }

    /** The roulette walk: the sorted spins move `source` forwards through
        the windows, and slot `target` of the next generation takes the
        chromosome whose window covers its spin. */
    method Walk(select: seq<real>)
      requires Valid() && |select| == size - 1 && Sorted(select)
      modifies nextPop
      ensures nextPop[0] == old(nextPop[0])
      ensures forall k :: 0 <= k < size - 1 ==> nextPop[k + 1] == population[Pick(scaled[..], select[k])]
    {
      ghost var w := scaled[..];
      var window := scaled[0];
      CumulativeFirst(w);
      var source, target := 0, 1;
      for k := 0 to |select|
        invariant target == k + 1 && source < size
        invariant window == Cumulative(w, source)
        invariant if k == 0 then source == 0 else source == Pick(w, select[k - 1])
        invariant nextPop[0] == old(nextPop[0])
        invariant forall j :: 0 <= j < k ==> nextPop[j + 1] == population[Pick(w, select[j])]
      {
        var x := select[k];
        if k > 0 {
          var y := select[k - 1];
          assert y <= x;
          forall m | 0 <= m < source
            ensures Cumulative(w, m) < x
          {
            assert Cumulative(w, m) < y;
          }
        }
        source, window := Advance(scaled, x, source, window);
        nextPop[target] := population[source];
        target := target + 1;
      }
    }

    /** The variation loop over slots `1 .. size - 1`; slot 0 is never
        touched. */
    method VaryAll(ops: Operators<C>, slots: seq<SlotDraws>)
      requires Valid() && |slots| == size - 1
      modifies nextPop
      ensures nextPop[..] == Varied(ops, rates, slots, old(nextPop[..]))
    {
      for i := 1 to size
        invariant forall j :: 0 <= j < size ==>
          nextPop[j] == if 1 <= j < i then Vary(ops, rates, slots[j - 1], j, old(nextPop[j])) else old(nextPop[j])
      {
        var d := slots[i - 1];
        var c := nextPop[i];
        if rates.mutation != 0.0 {
          c := ops.mutate(i, c, rates.mutation);
        }
        if rates.inversion != 0.0 && d.inversion < rates.inversion {
          c := ops.invert(i, c);
        }
        if rates.isTransposition != 0.0 && d.isTransposition < rates.isTransposition {
          c := ops.transposeIs(i, c, d.isLength);
        }
        if rates.risTransposition != 0.0 && d.risTransposition < rates.risTransposition {
          c := ops.transposeRis(i, c, d.risLength);
        }
        if rates.geneTransposition != 0.0 && d.geneTransposition < rates.geneTransposition {
          c := ops.transposeGene(i, c);
        }
        nextPop[i] := c;
      }
    }

    /** One crossover of `cycle`: when it fires, the chromosomes in the two
        drawn slots are replaced by their children; with fewer than three
        chromosomes there are no two slots to draw. */
    method CrossoverPair(fires: bool, d: PairDraw, op: (C, C) -> (C, C)) returns (r: Result<()>)
      requires Valid() && (fires && size >= 3 ==> PairDrawn(size, d))
      modifies nextPop
      ensures r.Err? <==> fires && size < 3
      ensures r.Err? ==> r.error == ValueError
      ensures r.Ok? ==> nextPop[..] == Cross(old(nextPop[..]), fires, d, op)
    {
      if fires {
        if size < 3 {
          return Err(ValueError);
        }
        var p1, p2 := nextPop[d.i1], nextPop[d.i2];
        var children := op(p1, p2);
        nextPop[d.i1] := children.0;
        nextPop[d.i2] := children.1;
      }
      r := Ok(());
    }

    /** Elitism, fitness scaling and the roulette walk: `_next_pop` holds
        the best chromosome, then the one each sorted spin selects. */
    method Select(select: seq<real>)
      requires Valid() && |select| == size - 1 && Sorted(select)
      modifies nextPop, scaled
      ensures nextPop[..] == Selection(population[..], fitness, rates.exclusion, mean, select)
    {
      var fs := Fitnesses(fitness, population[..]);
      nextPop[0] := population[BestIndex(fs)];
      ScaleFitness();
      Walk(select);
      assert nextPop[..] == Selection(population[..], fitness, rates.exclusion, mean, select) by {
        var sel := Selection(population[..], fitness, rates.exclusion, mean, select);
        forall j | 0 <= j < size
          ensures nextPop[j] == sel[j]
        {
        }
      }
    }

    /** The three crossovers in order: one-point, two-point, gene. */
    method Recombine(ops: Operators<C>, one: PairDraw, two: PairDraw, gene: PairDraw) returns (r: Result<()>)
      requires Valid() && PairsDrawn(size, rates, one, two, gene)
      modifies nextPop
      ensures r.Err? <==> !Pairable(size, rates, one, two, gene)
      ensures r.Err? ==> r.error == ValueError
      ensures r.Ok? ==> nextPop[..] == Recombined(ops, rates, one, two, gene, old(nextPop[..]))
    {
      r := CrossoverPair(Fires(rates.onePoint, one.draw), one, ops.crossoverOnePoint);
      if r.Err? {
        return;
      }
      r := CrossoverPair(Fires(rates.twoPoint, two.draw), two, ops.crossoverTwoPoint);
      if r.Err? {
        return;
      }
      r := CrossoverPair(Fires(rates.geneCrossover, gene.draw), gene, ops.crossoverGene);
    }

    /** `cycle()`: elitism, fitness scaling, the roulette walk over the
        sorted spins `select`, the variation of every slot but the first,
        the three crossovers, then the buffer swap and the next age.
        `nextMean` is the mean the fitness statistics give the new
        generation. */
    method Cycle(ops: Operators<C>, select: seq<real>, slots: seq<SlotDraws>,
                 one: PairDraw, two: PairDraw, gene: PairDraw, nextMean: real)
      returns (r: Result<()>)
      requires Valid() && |select| == size - 1 && Sorted(select) && |slots| == size - 1
      requires forall k :: 0 <= k < |slots| ==> LengthsDrawn(rates, slots[k])
      requires PairsDrawn(size, rates, one, two, gene)
      modifies this, nextPop, scaled
      ensures Valid()
      ensures r.Err? <==> !Pairable(size, rates, one, two, gene)
      ensures r.Err? ==>
        r.error == ValueError && population == old(population) && age == old(age)
      ensures r.Ok? ==>
        population == old(nextPop) && nextPop == old(population) && nextPop[..] == old(population[..]) &&
        population[..] == NextGeneration(old(population[..]), fitness, rates, old(mean), ops,
                                         select, slots, one, two, gene) &&
        age == old(age) + 1 && mean == nextMean
    {
      Select(select);
      VaryAll(ops, slots);
      r := Recombine(ops, one, two, gene);
      if r.Err? {
        return;
      }
      population, nextPop := nextPop, population;
      age := age + 1;
      mean := nextMean;
    }
  }
}
