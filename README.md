# pygep in Dafny

A model of the core of pygep, a Gene Expression Programming library, across
the snapshots the repository keeps side by side.

A chromosome is one or more genes. Each gene is a fixed-length sequence of
symbols: a head that may hold functions and terminals, followed by a tail of
`head * (arity - 1) + 1` terminals. A gene is read in Karva notation.
Breadth-first arity counting finds its coding region, and it is evaluated by
a reverse scan over a value buffer. The model covers:

- **Karva codec** (`karva.dfy`, `gene.dfy`). The branch 0.2 `KarvaGene`:
  - the coding-region count as a loop method;
  - the reverse scan as an in-place method over an `array`;
  - proofs that the count stays inside a properly sized gene, that
    `coding + 1` is `1 + Σ arity`, and that the scan yields the recursive
    value of the breadth-first decoded tree.
- **Genetic operators**, in three representations:
  - branch 0.2, a list of gene objects edited through `derive`
    (`gene_chromosome.dfy`);
  - tag 0.1.2-beta, one flat list with rate-based mutation, inversion,
    IS/RIS/gene transposition and three crossovers (`tag_chromosome.dfy`);
  - trunk, a flat list with single-locus mutation and three crossovers
    (`trunk_chromosome.dfy`).

  Chromosomes are classes with constant fields, so "returns self" is
  reference identity. The class-level organism counter is an `IdCounter`
  object (`ids.dfy`). The flat-list layout, gene windows, the coding tuple,
  the evaluation of every gene and the crossover splices are shared in
  `flat_list.dfy`, over gene positions from `positions.dfy`. The single-gene
  edits are in `loci.dfy`, and Python's slice-bound arithmetic is in
  `pylist.dfy`.
- **Population step** (`population.dfy`). The 0.1-beta `Population`, a
  class over arrays:
  - elitism;
  - fitness scaling;
  - the roulette walk over sorted spins;
  - the variation of slots `1 .. size - 1`;
  - the three crossovers;
  - the buffer swap and the age increment.

  The chromosome type is a parameter. The operators are given as functions,
  and fitness, the mean and every random draw are inputs.
- **Small helpers**:
  - the per-instance write-once `cache` decorator (`cache.dfy`);
  - the comparison non-terminals (`comparison.dfy`);
  - the logic non-terminals (`logic.dfy`);
  - the linkers (`linkers.dfy`).

Other modelling choices:
- **Symbols.** A symbol is `Func(arity, id) | Const(value) | Attr(name)`
  (`symbols.dfy`). This replaces `callable`, `func_code.co_argcount` and
  `isinstance(str)`. Applying a function is an uninterpreted parameter
  `apply`, and `getattr(obj, name)` reads an `obj: string -> Value` parameter.
- **Random draws.** Every `random.choice`, `random.sample`, `random.randint`
  and `random.random()` becomes an explicit parameter. Its precondition is
  the range the source draws from.

## Model

| member | source | states |
|---|---|---|
| Symbols.Config.MaxArity | tags/pygep-0.1.2-beta/src/pygep/chromosome.py:50-54 | the class arity bounds every function's argument count, is reached by one of them, and is 0 when there are no functions |
| Symbols.MaxArityOf | tags/pygep-0.1.2-beta/src/pygep/chromosome.py:52-54 | the maximum over a function list: an upper bound that is attained, or 0 for the empty list (the `ValueError` branch) |
| Symbols.GeneLengthCovers | branches/pygep-0.2/src/pygep/chromosome.py:112 | head plus tail is at least `head * arity + 1`, and exactly that whenever some function takes an argument |
| Karva.SizedExhausts | branches/pygep-0.2/src/pygep/gene/karva.py:43-51 | in a gene whose functions lie in the head and whose tail has `head * (m - 1) + 1` loci, reading every locus pays off every owed argument, so the count cannot run past the end |
| Karva.CloseFrom | branches/pygep-0.2/src/pygep/gene/karva.py:43-51 | from position `i`, the count reaches its first closing point `e` inside the gene, with arguments still owed at every earlier point |
| Karva.CodingLength | branches/pygep-0.2/src/pygep/gene/karva.py:43-53 | the coding region is one closed breadth-first tree |
| Karva.ClosedUnique | branches/pygep-0.2/src/pygep/gene/karva.py:43-53 | there is only one closing point, so the coding region is well defined |
| Karva.TerminalRoot | branches/pygep-0.2/src/pygep/gene/karva.py:43-53 | a terminal at position 0 gives a coding length of 1, that is `coding == 0` |
| Karva.CodingCount | branches/pygep-0.2/src/pygep/gene/karva.py:43-53 | the loop consumes exactly one root plus the arguments of every function in the coding region |
| Karva.CodingFixture | tags/pygep-0.1.2-beta/src/tests/variation/mutation.py:12 | for `[z, z, 'y', 3, 4]` with head 2 all five loci code, so the last coding index is 4 |
| Karva.CountCoding | branches/pygep-0.2/src/pygep/gene/karva.py:43-53 | the counting loop, run at a gene start of a list, returns an index inside the gene whose prefix up to it is the closed coding region (`index - 1`, not a length) |
| Karva.ChildrenInside | branches/pygep-0.2/src/pygep/gene/karva.py:82-92 | the children of locus `j` come after `j` and inside the coding region |
| Karva.NodeValue | branches/pygep-0.2/src/pygep/gene/karva.py:86-92 | a function locus applied to its breadth-first children's values gives the value of its decoded subtree |
| Karva.Scan | branches/pygep-0.2/src/pygep/gene/karva.py:82-92 | after the reverse scan, every slot of the coding region holds the value of its breadth-first subtree, and no slot outside it was written |
| Karva.ScanStep | branches/pygep-0.2/src/pygep/gene/karva.py:84-92 | one step at locus `i`: its slot gets its subtree's value from the slots just below the high-water index, nothing else is written, and the index falls by the locus's arity |
| Gene.KarvaGene.constructor | branches/pygep-0.2/src/pygep/gene/karva.py:27-53 | a sized gene gets `coding < len(alleles)`, and the loci `0 .. coding` form the closed coding tree |
| Gene.KarvaGene.Call | branches/pygep-0.2/src/pygep/gene/karva.py:57-95 | `evaluation[0]` after seeding and the reverse scan equals recursive evaluation of the breadth-first decoded tree |
| Gene.KarvaGene.Derive | branches/pygep-0.2/src/pygep/chromosome.py:227 | `derive(replacements)` gives a fresh valid gene whose loci are the old ones with every run written over them |
| Gene.LengthIsGeneLength | branches/pygep-0.2/src/pygep/gene/karva.py:116-117 | for a gene of a chromosome class, `len(gene)` is the class's gene length `head + tail`, and the last coding index lies below it |
| Gene.OverwriteAll | branches/pygep-0.2/src/pygep/chromosome.py:227 | applying replacements that fit keeps the gene's length |
| Loci.Overwrite | branches/pygep-0.2/src/pygep/chromosome.py:250 | writing a run at `i` replaces exactly loci `i .. i + len(run) - 1` and keeps the length |
| Loci.AllelesSized | branches/pygep-0.2/src/pygep/chromosome.py:112-120 | a generated gene (head from functions and terminals, tail from terminals) has the sizing the coding count relies on |
| Loci.FunctionInHead | branches/pygep-0.2/src/pygep/chromosome.py:112-120 | a function locus of a legal gene lies in the head |
| Loci.MutateRateZero | tags/pygep-0.1.2-beta/src/pygep/chromosome.py:271-282 | with rate 0 no locus is redrawn, since `random.random()` is never negative |
| Loci.MutateRateOne | tags/pygep-0.1.2-beta/src/pygep/chromosome.py:271-282 | with a rate of at least 1 every locus takes its drawn symbol |
| Loci.InvertRangeLoci | branches/pygep-0.2/src/pygep/chromosome.py:249-250 | inversion moves loci only within `[start, stop)`, mirrored, and keeps the length |
| Loci.InvertRangeAlleles | branches/pygep-0.2/src/pygep/chromosome.py:240-250 | inverting a range of the head keeps the gene legal, so its tail keeps only terminals |
| Loci.RunEndIsSlice | branches/pygep-0.2/src/pygep/chromosome.py:268-270 | the run cut at the truncated end is the Python slice `source[start:start + length]` |
| Loci.InsertLoci | tags/pygep-0.1.2-beta/src/pygep/chromosome.py:354-358 | transposon insertion writes exactly `[offset, head)`: first the run, then the old head shifted right, with loci pushed past the head dropped |
| Loci.InsertRoot | tags/pygep-0.1.2-beta/src/pygep/chromosome.py:386-388 | an insertion at the root puts the run's first locus at position 0 |
| Loci.InsertAlleles | tags/pygep-0.1.2-beta/src/pygep/chromosome.py:354-358 | inserting head symbols keeps a gene legal |
| Loci.RunSymbols | tags/pygep-0.1.2-beta/src/pygep/chromosome.py:355 | every locus of a legal gene may sit in a head |
| PyList.Bound | branches/pygep-0.2/src/pygep/chromosome.py:277 | the Python slice bound: negative bounds count from the end, and out-of-range bounds clamp to `0` or `len` |
| PyList.Slice | branches/pygep-0.2/src/pygep/chromosome.py:276-277 | `s[lo:hi]` has length `max(0, hi' - lo')` over the clamped bounds, with elements in order from `lo'` |
| PyList.ReversedTwice | branches/pygep-0.2/src/pygep/chromosome.py:249 | reversing a list twice gives it back |
| PyList.ReversedPermutes | branches/pygep-0.2/src/pygep/chromosome.py:249 | `reversed(s)` holds the same elements with the same multiplicities (proved by induction) |
| Ids.IdCounter.constructor | branches/pygep-0.2/src/pygep/chromosome.py:95 | the class counter starts at 1 |
| Ids.IdCounter.Take | branches/pygep-0.2/src/pygep/chromosome.py:149-150 | a new organism takes the counter as its id, and the counter goes up by one, so ids strictly increase |
| Positions.DivModIsDivision | branches/pygep-0.2/src/pygep/chromosome.py:356-358 | the gene and offset of a flat position are Python's `divmod` by the gene length |
| Positions.DivModOrdered | branches/pygep-0.2/src/pygep/chromosome.py:351-358 | ordered flat positions `i1 < i2` give ordered (gene, allele) pairs |
| FlatList.GeneOf | tags/pygep-0.1.2-beta/src/pygep/chromosome.py:195-198 | the window of gene `g` has exactly `gene_length` loci |
| FlatList.GeneLoci | tags/pygep-0.1.2-beta/src/pygep/chromosome.py:195-198 | locus `k` of gene `g` is the flat position `g * gene_length + k` |
| FlatList.GeneStartsMultiples | tags/pygep-0.1.2-beta/src/pygep/chromosome.py:195-198 | the gene starts are exactly the multiples of the gene length below the list length |
| FlatList.GeneOk | tags/pygep-0.1.2-beta/src/pygep/chromosome.py:107-115 | every gene window of a well-formed list is a legal gene |
| FlatList.OverwriteGene | tags/pygep-0.1.2-beta/src/pygep/chromosome.py:410-412 | writing a legal gene over a gene window keeps the list well formed |
| FlatList.HeadWrite | tags/pygep-0.1.2-beta/src/pygep/chromosome.py:301 | writing head symbols into a head range of a gene keeps the list well formed |
| FlatList.GeneOfOverwrite | tags/pygep-0.1.2-beta/src/pygep/chromosome.py:410-412 | after writing over gene `h`, gene `h` reads the written loci and every other gene reads as before |
| FlatList.GenesDetermine | tags/pygep-0.1.2-beta/src/pygep/chromosome.py:195-198 | two lists of the same length whose genes all agree are equal |
| FlatList.ConcatGenes | tags/pygep-0.1.2-beta/src/pygep/chromosome.py:110-115 | the concatenation of the generated genes has `genes * gene_length` loci, and gene `g` reads pick `g` |
| FlatList.AppendGene | tags/pygep-0.1.2-beta/src/pygep/chromosome.py:111-115 | `extend` with one more legal gene keeps every locus allowed at its gene offset |
| FlatList.Extend | tags/pygep-0.1.2-beta/src/pygep/chromosome.py:110-115 | the generation loop builds the concatenation of the drawn genes, a well-formed list of `genes` genes |
| FlatList.GeneCoding | tags/pygep-0.1.2-beta/src/pygep/chromosome.py:147-165 | the count at gene `g`'s start gives the absolute index of its last coding locus |
| FlatList.CodingIndexes | tags/pygep-0.1.2-beta/src/pygep/chromosome.py:146-165 | `self.coding` has one entry per gene, each inside its own gene, and it is that gene's last coding index |
| FlatList.CodingIsLast | trunk/pygep/src/pygep/chromosome.py:117-136 | `coding[g] - start + 1` is the coding length of gene `g` |
| FlatList.ValuesAreExpressed | tags/pygep-0.1.2-beta/src/pygep/chromosome.py:232-245 | the gene-start slots after every gene's scan are the values of the genes' decoded trees, in gene order |
| FlatList.StrideIs | tags/pygep-0.1.2-beta/src/pygep/chromosome.py:245 | `_eval[0:len:gene_length]` is the list of gene-start slots |
| FlatList.ScanGenes | tags/pygep-0.1.2-beta/src/pygep/chromosome.py:232-245 | the loop over `izip(coding, _gene_starts)` leaves the decoded value of every gene at its start and returns those values |
| FlatList.CrossedLoci | tags/pygep-0.1.2-beta/src/pygep/chromosome.py:442-443 | `p1[:lo] + p2[lo:hi] + p1[hi:]` and its mirror take the other parent's locus exactly in `[lo, hi)`, so at every locus the two children hold the parents' two loci |
| FlatList.CrossedLayout | tags/pygep-0.1.2-beta/src/pygep/chromosome.py:420-460 | locus-wise exchange between two well-formed lists of the same class and shape is well formed |
| TagChromosome.MutatedLayout | tags/pygep-0.1.2-beta/src/pygep/chromosome.py:271-282 | rate mutation draws tail loci from terminals, so the list stays well formed |
| TagChromosome.MutateLoci | tags/pygep-0.1.2-beta/src/pygep/chromosome.py:268-282 | the nested mutation loops compute the locus-wise redraw of the list |
| TagChromosome.FuncPositions | tags/pygep-0.1.2-beta/src/pygep/chromosome.py:376-379 | the RIS candidates are exactly the function positions of the source gene |
| TagChromosome.HasFunction | tags/pygep-0.1.2-beta/src/pygep/chromosome.py:375-381 | the search finds a function exactly when the source gene holds one |
| TagChromosome.InvertedGeneEffect | tags/pygep-0.1.2-beta/src/pygep/chromosome.py:293-301 | inverting a head range of gene `g` keeps the list well formed, reverses that range of gene `g` and leaves every other gene as it was |
| TagChromosome.InvertedUnchanged | tags/pygep-0.1.2-beta/src/pygep/chromosome.py:302-305 | the inversion leaves the list as it was exactly when the reversed range reads the same both ways |
| TagChromosome.InvertAsWrittenFirstGene | tags/pygep-0.1.2-beta/src/pygep/chromosome.py:296-301 | the reversal as written is the inversion of gene 0, and it leaves every later gene, the drawn one included, unchanged |
| TagChromosome.IsTransposedLayout | tags/pygep-0.1.2-beta/src/pygep/chromosome.py:354-358 | IS transposition keeps the list well formed |
| TagChromosome.IsTransposedFrame | tags/pygep-0.1.2-beta/src/pygep/chromosome.py:354-358 | IS transposition leaves every locus outside the target head range `[target + offset, target + head)` unchanged, and that range holds the new head loci |
| TagChromosome.SplicedHead | tags/pygep-0.1.2-beta/src/pygep/chromosome.py:354-358 | the slice assignment of exactly `head` items equals inserting the run at `offset` and keeping loci `[0, offset)`, the root included |
| TagChromosome.TransposeIsLoci | tags/pygep-0.1.2-beta/src/pygep/chromosome.py:339-358 | the list `transpose_is` builds is the IS transposition |
| TagChromosome.RisTransposedLayout | tags/pygep-0.1.2-beta/src/pygep/chromosome.py:386-388 | RIS transposition keeps the list well formed |
| TagChromosome.RisTransposedFrame | tags/pygep-0.1.2-beta/src/pygep/chromosome.py:386-388 | RIS transposition leaves every locus outside the target head `[target, target + head)` unchanged, and the head holds the new head loci |
| TagChromosome.RisRoot | tags/pygep-0.1.2-beta/src/pygep/chromosome.py:376-388 | the run starts at the drawn function, which lands on the target root |
| TagChromosome.RootHead | tags/pygep-0.1.2-beta/src/pygep/chromosome.py:386-388 | `(run + head)[:head]` is the insertion at the root |
| TagChromosome.TransposeRisLoci | tags/pygep-0.1.2-beta/src/pygep/chromosome.py:383-388 | the list `transpose_ris` builds is the RIS transposition, with the run truncated at `start + gene_length` and at the list end, not at the source gene's end |
| TagChromosome.SwapLoci | tags/pygep-0.1.2-beta/src/pygep/chromosome.py:406-412 | the slice assignments compute the exchange of the two gene windows |
| TagChromosome.SwapEffect | tags/pygep-0.1.2-beta/src/pygep/chromosome.py:406-412 | the two genes trade places and every other gene is kept, and the list is unchanged exactly when the two genes are equal |
| TagChromosome.SwapLayout | tags/pygep-0.1.2-beta/src/pygep/chromosome.py:406-412 | gene transposition keeps the list well formed |
| TagChromosome.SwappedGenes | tags/pygep-0.1.2-beta/src/pygep/chromosome.py:410-412 | gene by gene, the two writes swap genes `s` and `t` |
| TagChromosome.SwapUnchanged | tags/pygep-0.1.2-beta/src/pygep/chromosome.py:414-417 | the swapped list equals the original exactly when the two genes are equal |
| TagChromosome.Chromosome.constructor | tags/pygep-0.1.2-beta/src/pygep/chromosome.py:119-169 | a new chromosome stores its arguments, takes the next organism number, and computes the coding tuple of a well-formed list |
| TagChromosome.Chromosome.Generate | tags/pygep-0.1.2-beta/src/pygep/chromosome.py:100-116 | a generated chromosome has the drawn genes one after another; zero genes is the `ZeroDivisionError` of `len(self) / genes` |
| TagChromosome.Chromosome.LengthIsGenesTimesGeneLength | tags/pygep-0.1.2-beta/src/pygep/chromosome.py:139 | the list length is `genes * gene_length` |
| TagChromosome.Chromosome.Child | tags/pygep-0.1.2-beta/src/pygep/chromosome.py:201-203 | `_child` keeps class, head, genes and linker, and numbers the child after every earlier chromosome |
| TagChromosome.Chromosome.ChildIfChanged | tags/pygep-0.1.2-beta/src/pygep/chromosome.py:285-288 | a unary operator returns self, taking no number, exactly when the list is unchanged, and a fresh child otherwise |
| TagChromosome.Chromosome.Evaluate | tags/pygep-0.1.2-beta/src/pygep/chromosome.py:210-245 | `evaluate` seeds constants as themselves and names by `getattr`, scans each gene only in `[start, coding]`, and returns the linker over the gene values in gene order |
| TagChromosome.Chromosome.Mutate | tags/pygep-0.1.2-beta/src/pygep/chromosome.py:260-288 | mutation gives the locus-wise redraw, and returns self exactly when nothing changed, a fresh numbered child otherwise |
| TagChromosome.Chromosome.Invert | tags/pygep-0.1.2-beta/src/pygep/chromosome.py:291-305 | a head shorter than 2 raises `ValueError`; otherwise `[min, max)` of the drawn gene's head is reversed, the other genes are kept, and self is returned exactly when nothing changed (the corrected reading; see Findings) |
| TagChromosome.Chromosome.TransposeIs | tags/pygep-0.1.2-beta/src/pygep/chromosome.py:337-363 | a head shorter than 2 raises `IndexError` in `xrange(1, head)`; otherwise the result is the IS transposition with the linker kept, self exactly when the list is unchanged (the counter kept), a fresh child with the next id otherwise |
| TagChromosome.Chromosome.TransposeRis | tags/pygep-0.1.2-beta/src/pygep/chromosome.py:366-395 | with no function in the source gene it returns self; otherwise the target head is replaced, starting with the drawn function, and the result is self exactly when the list is unchanged (the counter kept), a fresh child with the next id otherwise |
| TagChromosome.Chromosome.TransposeGene | tags/pygep-0.1.2-beta/src/pygep/chromosome.py:398-417 | equal picks return self; otherwise the two genes trade places, and self is returned exactly when their contents are equal, with the counter kept then and advanced by one for a fresh child |
| TagChromosome.Chromosome.CrossoverOnePoint | tags/pygep-0.1.2-beta/src/pygep/chromosome.py:420-429 | two fresh children, `p1[:index] + p2[index:]` and its mirror, numbered in order |
| TagChromosome.Chromosome.CrossoverTwoPoint | tags/pygep-0.1.2-beta/src/pygep/chromosome.py:432-444 | a list shorter than 2 raises `ValueError`; otherwise two fresh children of this linker exchanging `[min, max)`, numbered in order, the counter advanced by two |
| TagChromosome.Chromosome.CrossoverGene | tags/pygep-0.1.2-beta/src/pygep/chromosome.py:447-460 | two fresh children of this linker exchanging exactly the window of the drawn gene, numbered in order, the counter advanced by two |
| TrunkChromosome.PointIsOverwrite | trunk/pygep/src/pygep/chromosome.py:228-229 | the single-slot write is a write over the gene's window with one locus changed |
| TrunkChromosome.PointGenes | trunk/pygep/src/pygep/chromosome.py:228-229 | after the point write only gene `g` changes, at offset `index` |
| TrunkChromosome.PointLayout | trunk/pygep/src/pygep/chromosome.py:218-229 | a terminal drawn for `index >= head` keeps the list well formed |
| TrunkChromosome.PointEffect | trunk/pygep/src/pygep/chromosome.py:218-229 | the point write keeps the list well formed, changes gene `g` at `index` and keeps every other gene |
| TrunkChromosome.Chromosome.constructor | trunk/pygep/src/pygep/chromosome.py:95-140 | a new chromosome stores its arguments, takes the next organism number, and computes the coding tuple |
| TrunkChromosome.Chromosome.Generate | trunk/pygep/src/pygep/chromosome.py:76-92 | `genes` drawn genes of head symbols and a terminal tail, one after another; zero genes is the `ZeroDivisionError` of `len(self) / genes` |
| TrunkChromosome.Chromosome.Child | trunk/pygep/src/pygep/chromosome.py:172-174 | `_child` keeps head, genes and linker, and ids strictly increase |
| TrunkChromosome.Chromosome.Evaluate | trunk/pygep/src/pygep/chromosome.py:181-207 | every non-function locus is read with `getattr`, so a constant raises `TypeError`; otherwise the result is the linker over the gene values, in gene order |
| TrunkChromosome.Chromosome.Mutate | trunk/pygep/src/pygep/chromosome.py:215-230 | at most locus `start + index` changes, with a terminal in the tail; the result is always a fresh child with a new id |
| TrunkChromosome.Chromosome.CrossoverOnePoint | trunk/pygep/src/pygep/chromosome.py:233-242 | two fresh children, `p1[:index] + p2[index:]` and its mirror |
| TrunkChromosome.Chromosome.CrossoverTwoPoint | trunk/pygep/src/pygep/chromosome.py:245-257 | a list shorter than 2 raises `ValueError`; otherwise two fresh children of this linker exchange `[i1, i2)` with `i1 < i2`, the counter advanced by two |
| TrunkChromosome.Chromosome.CrossoverGene | trunk/pygep/src/pygep/chromosome.py:260-273 | two fresh children of this linker exchange exactly `[i1, i1 + gene_length)` at a gene start, the counter advanced by two |
| GeneChromosome.Replacements | branches/pygep-0.2/src/pygep/chromosome.py:210-222 | every recorded replacement is a single locus inside the gene |
| GeneChromosome.ReplacementsMutate | branches/pygep-0.2/src/pygep/chromosome.py:210-227 | applying the recorded replacements gives the locus-wise redraw, and none is recorded exactly when the redraw changes nothing |
| GeneChromosome.ReplacementsEmpty | branches/pygep-0.2/src/pygep/chromosome.py:220-222 | a replacement is recorded only when the drawn allele differs |
| GeneChromosome.MutatePreservesAlleles | branches/pygep-0.2/src/pygep/chromosome.py:213-218 | the redraw writes only terminals at loci `i >= head`, so the gene stays legal |
| GeneChromosome.CollectReplacements | branches/pygep-0.2/src/pygep/chromosome.py:210-222 | the locus loop builds exactly the replacement list |
| GeneChromosome.MutateGene | branches/pygep-0.2/src/pygep/chromosome.py:225-227 | a gene with no replacements keeps its object; otherwise a fresh derived gene holds the redraw |
| GeneChromosome.MutateGenes | branches/pygep-0.2/src/pygep/chromosome.py:205-227 | each gene gets its redraw, and the list keeps every object exactly when no redraw changes anything |
| GeneChromosome.TransposedRunLength | branches/pygep-0.2/src/pygep/chromosome.py:276-277 | for a run of length `L`, the replacement has length `head - offset` if `L <= head - offset`, `L` if `L <= head`, and `len(gene) + head - offset` once the bound `head - L` wraps |
| GeneChromosome.TransposedRunAgrees | branches/pygep-0.2/src/pygep/chromosome.py:276-277 | when the run fits in the free part of the head, the replacement is the head insertion |
| GeneChromosome.TransposeIsOverrun | branches/pygep-0.2/src/pygep/chromosome.py:276-278 | two legal genes whose IS replacement makes the target illegal, a function landing in its tail (see Findings) |
| GeneChromosome.TransposeRisOverrun | branches/pygep-0.2/src/pygep/chromosome.py:302-303 | a concrete gene whose RIS replacement is longer than the gene (see Findings) |
| GeneChromosome.InsertRun | branches/pygep-0.2/src/pygep/chromosome.py:263-278 | the corrected IS step: a fresh target gene with the run inserted at `offset` and the head clipped, other genes kept |
| GeneChromosome.RootInsert | branches/pygep-0.2/src/pygep/chromosome.py:285-303 | the corrected RIS step: a fresh target gene with the run inserted at the root, which gets the drawn function |
| GeneChromosome.CrossGeneLoci | branches/pygep-0.2/src/pygep/chromosome.py:333-334 | `derive([(index, g2[index:])])` takes the other parent's loci exactly from `index` on, and its mirror the other way |
| GeneChromosome.CrossGeneAlleles | branches/pygep-0.2/src/pygep/chromosome.py:333-334 | the crossed genes of two legal genes are legal |
| GeneChromosome.SwapGenesTwice | branches/pygep-0.2/src/pygep/chromosome.py:361-363 | exchanging the slots strictly between `i1` and `i2` twice gives both parents' lists back |
| GeneChromosome.TwoPoint | branches/pygep-0.2/src/pygep/chromosome.py:361-373 | the as-written two-point exchange keeps the gene count and every gene length |
| GeneChromosome.TwoPointLoci | branches/pygep-0.2/src/pygep/chromosome.py:361-373 | as written, the loci between the two points are exchanged when the points lie in different genes, but the loci outside `[a1, a2)` are exchanged when they lie in the same gene |
| GeneChromosome.TwoPointSameGeneExample | branches/pygep-0.2/src/pygep/chromosome.py:366-373 | a concrete pair with both points in gene 0 where the as-written result differs from the intended exchange (see Findings) |
| GeneChromosome.TwoPointExchange | branches/pygep-0.2/src/pygep/chromosome.py:339-375 | the corrected two-point exchange keeps the gene count and every gene length |
| GeneChromosome.TwoPointExchangeLoci | branches/pygep-0.2/src/pygep/chromosome.py:339-375 | the corrected exchange swaps exactly the loci at flat positions in `[i1, i2)` |
| GeneChromosome.TwoPointFlat | branches/pygep-0.2/src/pygep/chromosome.py:351-358 | stated over the flat positions `i1 < i2`, locus `(g, k)` is exchanged exactly when `i1 <= g * gene_length + k < i2` |
| GeneChromosome.DeriveOne | branches/pygep-0.2/src/pygep/chromosome.py:250 | `derive([(i, run)])` of a legal result gives a fresh legal gene with the run written at `i` |
| GeneChromosome.SwapMiddle | branches/pygep-0.2/src/pygep/chromosome.py:361-363 | the middle slice swap of the two gene lists: the slots strictly between hold the other parent's gene objects, every other slot keeps its own |
| GeneChromosome.CrossFrom | branches/pygep-0.2/src/pygep/chromosome.py:367-369 | the first derivation pair exchanges the start gene's loci from `a1` on, in fresh genes, and every other slot keeps its object |
| GeneChromosome.CrossBefore | branches/pygep-0.2/src/pygep/chromosome.py:371-373 | the second derivation pair exchanges the stop gene's loci before `a2`, in fresh genes, and every other slot keeps its object |
| GeneChromosome.CrossBetween | branches/pygep-0.2/src/pygep/chromosome.py:361-373 | the whole as-written two-point step yields the as-written exchange; the two point genes are fresh, the slots between them hold the other parent's objects and the slots outside keep their own |
| GeneChromosome.ExchangeSegment | branches/pygep-0.2/src/pygep/chromosome.py:366-373 | the corrected same-gene step exchanges loci `[a1, a2)` of that gene only, in one fresh gene per child, every other slot keeping its object |
| GeneChromosome.TwoPointGenes | branches/pygep-0.2/src/pygep/chromosome.py:348-375 | the corrected two-point step over the gene lists of two parents gives the flat-position exchange; only the genes holding the two points are new, the slots between them hold the other parent's objects and the rest keep their own |
| GeneChromosome.Chromosome.constructor | branches/pygep-0.2/src/pygep/chromosome.py:125-150 | a new chromosome stores its genes, head and linker, and takes the next organism number |
| GeneChromosome.Chromosome.Create | branches/pygep-0.2/src/pygep/chromosome.py:138-150 | `head < 0` and an empty gene list raise `ValueError` before a number is taken; otherwise a fresh chromosome with the next id |
| GeneChromosome.Chromosome.Generate | branches/pygep-0.2/src/pygep/chromosome.py:104-122 | zero genes is `ValueError` before an id is taken; otherwise exactly `genes` genes, each with the drawn head and terminal tail, in a fresh chromosome of the given class and linker with the next id |
| GeneChromosome.Chromosome.LengthIsGenesTimesGeneLength | branches/pygep-0.2/src/pygep/chromosome.py:153-154 | `len(self)` is the gene count times the gene length |
| GeneChromosome.Chromosome.Child | branches/pygep-0.2/src/pygep/chromosome.py:162-166 | self is returned when the list holds the same gene objects; otherwise a fresh child with the next id |
| GeneChromosome.Chromosome.Call | branches/pygep-0.2/src/pygep/chromosome.py:173-182 | the linker over every gene's decoded value, in gene order |
| GeneChromosome.Chromosome.Mutate | branches/pygep-0.2/src/pygep/chromosome.py:197-230 | each gene gets its redraw, and keeps its object exactly when the redraw changes nothing; self (the counter kept) exactly when no gene changes, otherwise a fresh child with the linker and the next id |
| GeneChromosome.Chromosome.Invert | branches/pygep-0.2/src/pygep/chromosome.py:233-251 | a head shorter than 2 returns self; otherwise only slot `i` gets a new gene object, whose `[start, stop)` is reversed, in a fresh child with the linker and the next id |
| GeneChromosome.Chromosome.TransposeIs | branches/pygep-0.2/src/pygep/chromosome.py:255-279 | a head shorter than 2 returns self; otherwise a fresh child with the linker and the next id in which only the target slot gets a new gene, by head insertion at `offset` (the corrected reading; see Findings) |
| GeneChromosome.Chromosome.TransposeRis | branches/pygep-0.2/src/pygep/chromosome.py:282-304 | no function in the source returns self; otherwise a fresh child with the linker and the next id in which only the target slot gets a new gene, whose root is the drawn function (the corrected reading; see Findings) |
| GeneChromosome.Chromosome.TransposeGene | branches/pygep-0.2/src/pygep/chromosome.py:307-317 | fewer than 2 genes returns self; otherwise two distinct slots are swapped, and self (the counter kept) is returned exactly when they hold the same object, otherwise a fresh child with the linker and the next id |
| GeneChromosome.Chromosome.CrossoverOnePoint | branches/pygep-0.2/src/pygep/chromosome.py:320-336 | only the chosen slot gets a new gene, crossed from `index` on, in two fresh children carrying their parents' linkers, numbered in order, the counter advanced by two |
| GeneChromosome.Chromosome.CrossoverTwoPoint | branches/pygep-0.2/src/pygep/chromosome.py:339-375 | length below 2 returns `(self, other)`; otherwise two fresh children, carrying their parents' linkers and numbered in order, exchange exactly the flat positions in `[i1, i2)`; only the two point genes are new objects, the slots between them hold the other parent's objects and the rest keep their own (the corrected reading; see Findings) |
| GeneChromosome.Chromosome.CrossoverGene | branches/pygep-0.2/src/pygep/chromosome.py:378-389 | one gene slot is exchanged, and each child is its parent exactly when the two genes are the same object (the counter kept); otherwise both are fresh, carry their parents' linkers and take the next two ids |
| Population.HeaderShape | tags/pygep-0.1-beta/src/pygep/population.py:76-80 | the header has `l` digits, character `i` being `i mod 10`, then a newline and `l` dashes |
| Population.BestIndex | tags/pygep-0.1-beta/src/pygep/population.py:113-117 | `best` has a maximum fitness, and no later chromosome ties it |
| Population.WeightOrder | tags/pygep-0.1-beta/src/pygep/population.py:132-137 | with a positive mean and pressure, scaling keeps the fitness order and the sign, with no clamping |
| Population.Pick | tags/pygep-0.1-beta/src/pygep/population.py:146-156 | a spin selects the first index whose cumulative weight covers it, or the last index |
| Population.PickIs | tags/pygep-0.1-beta/src/pygep/population.py:146-156 | `Pick` is determined by its two cases |
| Population.PickMonotone | tags/pygep-0.1-beta/src/pygep/population.py:146-160 | a larger spin never selects an earlier chromosome, so `source` never decreases |
| Population.Advance | tags/pygep-0.1-beta/src/pygep/population.py:150-156 | the inner loop moves `source` forward to the spin's pick, with the window its cumulative weight |
| Population.Defaults | tags/pygep-0.1-beta/src/pygep/population.py:40-50 | the mutation rate set by `__init__` is `2.0 / l`: `mutation_rate * l == 2.0` |
| Population.CrossKeepsFirst | tags/pygep-0.1-beta/src/pygep/population.py:193-209 | a crossover never touches slot 0 |
| Population.ElitismKeepsBest | tags/pygep-0.1-beta/src/pygep/population.py:128-209 | slot 0 of the next generation is this generation's best instance |
| Population.BestNeverDecreases | tags/pygep-0.1-beta/src/pygep/population.py:128-213 | with cached fitness, the best fitness never decreases |
| Population.GenerationOk | tags/pygep-0.1-beta/src/pygep/population.py:166-209 | when every operator keeps chromosomes well formed, a whole cycle does |
| Population.Population.constructor | tags/pygep-0.1-beta/src/pygep/population.py:53-86 | `size` initial chromosomes, age 0, the header and the default rates with `2.0 / l` mutation |
| Population.Population.Create | tags/pygep-0.1-beta/src/pygep/population.py:76-85 | an empty population raises `ValueError`; otherwise as the constructor |
| Population.Population.ScaleFitness | tags/pygep-0.1-beta/src/pygep/population.py:132-136 | `_scaled[i]` is chromosome `i`'s scaled fitness |
| Population.Population.Walk | tags/pygep-0.1-beta/src/pygep/population.py:146-160 | slot 0 is kept, and each slot `1 .. size - 1` gets the chromosome its sorted spin selects |
| Population.Population.VaryAll | tags/pygep-0.1-beta/src/pygep/population.py:166-190 | every slot but 0 is varied by the operators whose rates fire, in order |
| Population.Population.CrossoverPair | tags/pygep-0.1-beta/src/pygep/population.py:193-197 | a firing crossover needs two distinct slots of `1 .. size - 1`, so fewer than 3 raises `ValueError`; otherwise the children replace their parents |
| Population.Population.Select | tags/pygep-0.1-beta/src/pygep/population.py:128-160 | `_next_pop` holds the best, then the selected chromosomes |
| Population.Population.Recombine | tags/pygep-0.1-beta/src/pygep/population.py:193-209 | one-point, two-point and gene crossover, each at most once, in that order |
| Population.Population.Cycle | tags/pygep-0.1-beta/src/pygep/population.py:125-214 | the next population is the next generation, the buffers are swapped, age goes up by 1, and the size is unchanged |
| Cache.CacheName | tags/pygep-0.1.1-beta/src/pygep/util/__init__.py:32 | the attribute name is `_` + name + `_cache` |
| Cache.CacheNameInjective | tags/pygep-0.1.1-beta/src/pygep/util/__init__.py:32 | different methods use different attributes |
| Cache.Cell.Call | tags/pygep-0.1.1-beta/src/pygep/util/__init__.py:35-41 | a stored value is returned without calling; otherwise the method is called, and its value is stored only if it returns |
| Cache.ReplayStored | trunk/pygep/src/tests/cache.py:18-22 | once stored, every later call returns the stored value |
| Cache.ReplayFirstReturn | tags/pygep-0.1.1-beta/src/pygep/util/__init__.py:36-41 | calls before the first return raise, and every later call gives the first returned value |
| Cache.PerInstance | trunk/pygep/src/tests/cache.py:24-28 | a new instance computes once, and an instance that has already computed does not |
| Comparison.Equal | tags/pygep-0.1-beta/src/pygep/functions/comparison.py:30-33 | `equal(x, y)` always equals `y` |
| Comparison.Unequal | tags/pygep-0.1-beta/src/pygep/functions/comparison.py:36-39 | `unequal(x, y)` always equals `x` |
| Comparison.Less | tags/pygep-0.1-beta/src/pygep/functions/comparison.py:42-45 | the minimum, one of the arguments |
| Comparison.Greater | tags/pygep-0.1-beta/src/pygep/functions/comparison.py:48-51 | the maximum, one of the arguments |
| Comparison.LessOrEqual | tags/pygep-0.1-beta/src/pygep/functions/comparison.py:54-57 | the minimum, one of the arguments |
| Comparison.GreaterOrEqual | tags/pygep-0.1-beta/src/pygep/functions/comparison.py:60-63 | the maximum, one of the arguments |
| Comparison.StrictAgrees | tags/pygep-0.1-beta/src/pygep/functions/comparison.py:42-63 | the strict and non-strict forms agree |
| Comparison.MinMaxSplit | tags/pygep-0.1-beta/src/pygep/functions/comparison.py:42-51 | less and greater split the pair into its minimum and maximum, symmetric in the arguments |
| Comparison.Fixtures | trunk/pygep/src/tests/functions/comparison.py:7-24 | the test cases for equal, unequal, less and greater |
| Logic.AndOp | tags/pygep-0.1.3-beta/src/pygep/functions/logic.py:36-39 | truthy exactly when both are, and one of the arguments |
| Logic.OrOp | tags/pygep-0.1.3-beta/src/pygep/functions/logic.py:42-45 | truthy exactly when either is, and one of the arguments |
| Logic.NotOp | tags/pygep-0.1.3-beta/src/pygep/functions/logic.py:48-51 | a boolean whose truth is the negation of the argument's |
| Logic.IfOp | tags/pygep-0.1.3-beta/src/pygep/functions/logic.py:54-57 | `y` when `x` is truthy, otherwise `z` |
| Logic.ShortCircuit | tags/pygep-0.1.3-beta/src/pygep/functions/logic.py:36-45 | `and` returns `x` when it is falsy and `y` otherwise; `or` is the dual |
| Logic.DeMorgan | tags/pygep-0.1.3-beta/src/pygep/functions/logic.py:36-51 | De Morgan's laws hold for the three operators |
| Logic.IfIsChoice | tags/pygep-0.1.3-beta/src/pygep/functions/logic.py:36-57 | `if_op` has the truth of `(x and y) or (not x and z)` |
| Logic.IfOpWidensGenes | tags/pygep-0.1.3-beta/src/pygep/functions/logic.py:54-57 | with the arity-3 `if_op` among the functions, the arity is at least 3 and a gene has at least `3 * head + 1` loci |
| Linkers.SumLinker | tags/pygep-0.1-beta/src/pygep/functions/linkers.py:26-28 | `sum(args)` fails exactly when some argument is not a number, and otherwise is the sum of their numeric values |
| Linkers.SumLinkerSmall | tags/pygep-0.1-beta/src/pygep/functions/linkers.py:26-28 | no arguments sum to 0, and one number sums to itself |
| Linkers.SumLinkerConcat | tags/pygep-0.1-beta/src/pygep/functions/linkers.py:26-28 | the sum over two argument lists succeeds exactly when both do, and is the sum of the two |
| Linkers.OrLinkerAsWritten | tags/pygep-0.1-beta/src/pygep/functions/linkers.py:31-36 | as written: `None` for no arguments, otherwise the truth of the first argument only |
| Linkers.OrLinkerAsWrittenFirstOnly | tags/pygep-0.1-beta/src/pygep/functions/linkers.py:31-36 | as written, arguments after the first are never inspected |
| Linkers.OrLinkerAsWrittenMissesLater | tags/pygep-0.1-beta/src/pygep/functions/linkers.py:31-36 | `(False, True)` gives `False` as written and `True` as intended, and `()` gives `None` as written and `False` as intended |
| Linkers.OrLinker | tags/pygep-0.1-beta/src/pygep/functions/linkers.py:31-36 | the corrected linker is `True` exactly when some argument is truthy |
| Linkers.OrLinkerAgreesOnFirst | tags/pygep-0.1-beta/src/pygep/functions/linkers.py:31-36 | the two agree on a non-empty list exactly when the first argument is truthy or none is |

## Left out

- Randomness: every `random` call is a parameter, with a precondition for the range it draws from. Probabilistic claims, such as about two mutated loci per chromosome, are out of scope.
- `list.sort` of the roulette spins: the walk takes the spins already scaled by `sum(_scaled)` and sorted, and `Sorted` is its precondition.
- `stats.fitness_stats` is not part of this model. The mean is an input, as is the `nextMean` that `_update_stats` computes after a cycle, and `stdev` is not kept.
- Python floats: fitness, weights, spins and rates are exact `real`s, so rounding and the floating-point `IndexError` fallback are exact here. That fallback is still modelled as the last index.
- Population.GenerationOk: the chromosome operators are abstract functions with a well-formedness predicate. It is stated for chromosome types without heap identity, whereas the concrete chromosome classes are compared by reference.
- Function application and the errors functions raise during evaluation: `apply` is an uninterpreted parameter.
- `getattr` on a missing attribute: `obj` is a total function, so `AttributeError` is not modelled.
- TrunkChromosome.Chromosome.Evaluate: on the `TypeError` path it does not state which buffer slots were written before the error.
- The initial contents of the `_eval` buffer in both flat-list chromosomes: every slot is seeded before it is read, so the constructor leaves them unspecified.
- Linkers: Python's `int`/`float`/`bool` arithmetic is collapsed into one `Num(real)` kind plus `Bool` converted as 1/0. `None` and strings in `sum` are a `TypeError`.
- Comparison functions are stated over `real`s only. Python's mixed-type comparisons are not modelled.
- The 0.2 crossovers and the flat-list crossovers require two parents of the same class, head and gene count, as every caller in the population supplies.
- `KarvaGene.derive`, gene slicing and gene iteration are not part of the shown gene source. `Derive` models the contract every call site relies on.
- `memoize` (not part of this model), the `@cache` on `__repr__`, every `__repr__`, the `symbol` decorator and the metaclass wiring are left out.
- `tags/pygep-0.1-beta/src/pygep/functions/arithmetic.py` (float operators), `Population.solve` (an empty stub), the trunk `Population` (only a header), the demos and `setup.py` are left out.
- Cache.Cell.Call: the wrapped method's result is a parameter `outcome`, and only its first call on an instance is observable. The exception raised is not distinguished beyond `Raised`.
- The first `transpose_is` of 0.1.2-beta is shadowed by the second definition and is not modelled.
- Logic.AndOp and Logic.OrOp follow the code, which returns one of the operands, where the 0.1.3-beta module documentation says they return booleans.

## Findings

| source | as written | input that shows it | evidently intended | confidence | as-written member | corrected member |
|---|---|---|---|---|---|---|
| branches/pygep-0.2/src/pygep/chromosome.py:276-278 | the IS replacement `source[start:end] + target[offset:head-end+start]` is longer than `head - offset` when the run is longer than the free head, and the slice bound `head - L` wraps when `L > head`, so `derive` writes past the head into the tail | head 2, offset 1, run `[f, f]`: the replacement `[f, f]` at offset 1 puts a function at locus 2, in the tail | insert the run at `offset` and clip the head at `head` loci, as 0.1.2-beta does | high, not executed | GeneChromosome.TransposeIsOverrun | GeneChromosome.InsertRun |
| branches/pygep-0.2/src/pygep/chromosome.py:302-303 | the RIS replacement `source[start:end] + target[:head+start-end]` exceeds the head exactly when the run is longer than the head, which is when the bound `head - L` wraps; a run of at most `head` loci gives exactly `head` loci, as intended | head 1, source `[f, x, x]`, run of length 3: the replacement has 4 loci for a 3-locus gene | insert the run at the root and clip the head | high, not executed | GeneChromosome.TransposeRisOverrun | GeneChromosome.RootInsert |
| branches/pygep-0.2/src/pygep/chromosome.py:366-373 | with both points in the same gene, the two derivations exchange the loci from `a1` on and then exchange back the loci before `a2`, so the loci OUTSIDE `[a1, a2)` end up exchanged | two genes of three loci, points (0, 1) and (0, 2): child 1's gene 0 is `[y, x, y]` instead of `[x, y, x]` | exchange exactly loci `[a1, a2)` of that gene | high, not executed | GeneChromosome.TwoPointSameGeneExample | GeneChromosome.TwoPointExchange |
| tags/pygep-0.1-beta/src/pygep/functions/linkers.py:31-36 | `return False` sits inside the loop, so only the first argument is inspected, and no arguments fall through to `None` | `or_linker(False, True)` gives `False`; `or_linker()` gives `None` | `True` exactly when some argument is truthy, `False` otherwise | high, not executed | Linkers.OrLinkerAsWrittenMissesLater | Linkers.OrLinker |
| tags/pygep-0.1.2-beta/src/pygep/chromosome.py:296-301 | the drawn gene start `gene` is never used: `chromosome[start:stop]` reverses positions of the whole list, always in the first gene's head | two genes, drawn gene 1: gene 1 is left as it was and gene 0 is inverted | reverse `[start, stop)` of the drawn gene's head, as the comment and branch 0.2 do | high, not executed | TagChromosome.InvertAsWrittenFirstGene | TagChromosome.Chromosome.Invert |
