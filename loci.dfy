/** Loci of one gene as a sequence of symbols, and the edits every snapshot's
    operators make to them: overwriting a run, point mutation by rate,
    inversion of a range and insertion of a transposon into the head. */
module Loci {
  import opened Symbols
  import opened Karva
  import opened PyList

  /** Overwrite loci `i .. i + |run| - 1` of `a` with `run`. */
  function Overwrite(a: seq<Symbol>, i: nat, run: seq<Symbol>): (r: seq<Symbol>)
    requires i + |run| <= |a|
    ensures |r| == |a|
    ensures forall k :: 0 <= k < |a| ==> r[k] == if i <= k < i + |run| then run[k - i] else a[k]
  {
    a[..i] + run + a[i + |run|..]
  }

  /** Loci of one gene of a chromosome class: the generated length, and
      functions only in the head. */
  predicate AllelesOk(cfg: Config, head: nat, a: seq<Symbol>)
  {
    |a| == GeneLength(head, cfg.MaxArity()) &&
    forall i :: 0 <= i < |a| ==> cfg.Allowed(head, i, a[i])
  }

  /** Allowed loci have the sizing the Karva count relies on. */
  lemma AllelesSized(cfg: Config, head: nat, a: seq<Symbol>)
    requires cfg.Ok() && AllelesOk(cfg, head, a)
    ensures Sized(a, head, cfg.MaxArity())
  {
    var m := cfg.MaxArity();
    GeneLengthCovers(head, m);
    forall i | 0 <= i < |a|
      ensures Arity(a[i]) <= m
      ensures head <= i ==> !a[i].Func?
    {
      if a[i] in cfg.terminals {
        var j :| 0 <= j < |cfg.terminals| && cfg.terminals[j] == a[i];
      } else {
        assert a[i] in cfg.functions;
        var j :| 0 <= j < |cfg.functions| && cfg.functions[j] == a[i];
      }
    }
  }

  /** A function locus of a legal gene lies in its head. */
  lemma FunctionInHead(cfg: Config, head: nat, a: seq<Symbol>, i: nat)
    requires cfg.Ok() && AllelesOk(cfg, head, a) && i < |a| && a[i].Func?
    ensures i < head
  {
    assert cfg.Allowed(head, i, a[i]);
  }

  /** Locus `i` is redrawn when its draw is below the rate; it then holds the
      symbol picked for it (which may equal the old one). */
  function MutatedAlleles(a: seq<Symbol>, d: seq<real>, p: seq<Symbol>, rate: real): (r: seq<Symbol>)
    requires |d| == |p| == |a|
  {
    seq(|a|, i requires 0 <= i < |a| => if d[i] < rate then p[i] else a[i])
  }

  /** Rate 0 changes nothing, since `random.random()` is never negative. */
  lemma MutateRateZero(a: seq<Symbol>, d: seq<real>, p: seq<Symbol>, rate: real)
    requires |d| == |p| == |a|
    requires forall i :: 0 <= i < |d| ==> 0.0 <= d[i] < 1.0
    requires rate <= 0.0
    ensures MutatedAlleles(a, d, p, rate) == a
  {
  }

  /** A rate of at least 1 redraws every locus. */
  lemma MutateRateOne(a: seq<Symbol>, d: seq<real>, p: seq<Symbol>, rate: real)
    requires |d| == |p| == |a|
    requires forall i :: 0 <= i < |d| ==> 0.0 <= d[i] < 1.0
    requires rate >= 1.0
    ensures MutatedAlleles(a, d, p, rate) == p
  {
  }

  /** `a` with loci `[start, stop)` reversed. */
  function InvertRange(a: seq<Symbol>, start: nat, stop: nat): (r: seq<Symbol>)
    requires start <= stop <= |a|
  {
    Overwrite(a, start, Reversed(a[start..stop]))
  }

  /** Inversion moves loci only within `[start, stop)`, mirrored. */
  lemma InvertRangeLoci(a: seq<Symbol>, start: nat, stop: nat)
    requires start <= stop <= |a|
    ensures |InvertRange(a, start, stop)| == |a|
    ensures forall k :: 0 <= k < |a| ==>
      InvertRange(a, start, stop)[k] == if start <= k < stop then a[start + stop - 1 - k] else a[k]
  {
    var r := InvertRange(a, start, stop);
    forall k | start <= k < stop
      ensures r[k] == a[start + stop - 1 - k]
    {
      assert r[k] == Reversed(a[start..stop])[k - start];
    }
  }

  /** Inversion inside the head keeps the gene legal. */
  lemma InvertRangeAlleles(cfg: Config, head: nat, a: seq<Symbol>, start: nat, stop: nat)
    requires AllelesOk(cfg, head, a) && start <= stop <= head
    ensures AllelesOk(cfg, head, InvertRange(a, start, stop))
  {
    InvertRangeLoci(a, start, stop);
    var r := InvertRange(a, start, stop);
    forall k | 0 <= k < |r|
      ensures cfg.Allowed(head, k, r[k])
    {
      if start <= k < stop {
        assert cfg.Allowed(head, start + stop - 1 - k, a[start + stop - 1 - k]);
      }
    }
  }

  /** End of the IS/RIS run: `start + length`, truncated at the gene end. */
  function RunEnd(n: nat, start: nat, length: nat): (end: nat)
    requires start <= n
    ensures start <= end <= n
    ensures end - start == if start + length > n then n - start else length
  {
    if start + length > n then n else start + length
  }

  /** The truncated run is the Python slice `src[start:start + length]`. */
  lemma RunEndIsSlice(src: seq<Symbol>, start: nat, length: nat)
    requires start <= |src|
    ensures src[start..RunEnd(|src|, start, length)] == Slice(src, start, start + length)
  {
    var end := RunEnd(|src|, start, length);
    var r := Slice(src, start, start + length);
    assert |r| == end - start;
    assert forall k :: 0 <= k < |r| ==> r[k] == src[start + k];
  }

  /** Transposon insertion into a head: the run is inserted at `offset`, the
      rest of the head shifts right, and what is pushed past the head is
      dropped, so exactly the loci `[offset, head)` change.  This is what
      0.1.2-beta computes and what the branch 0.2 transpositions intend. */
  function Insert(run: seq<Symbol>, tgt: seq<Symbol>, offset: nat, head: nat): (r: seq<Symbol>)
    requires offset <= head <= |tgt|
  {
    (run + tgt[offset..head])[..head - offset]
  }

  /** The inserted loci: the run first, then the old head shifted right by the
      run's length. */
  lemma InsertLoci(run: seq<Symbol>, tgt: seq<Symbol>, offset: nat, head: nat)
    requires offset <= head <= |tgt|
    ensures |Insert(run, tgt, offset, head)| == head - offset
    ensures forall k :: offset <= k < head ==>
      Overwrite(tgt, offset, Insert(run, tgt, offset, head))[k] ==
        if k - offset < |run| then run[k - offset] else tgt[k - |run|]
    ensures forall k :: 0 <= k < |tgt| && !(offset <= k < head) ==>
      Overwrite(tgt, offset, Insert(run, tgt, offset, head))[k] == tgt[k]
  {
    var r := Overwrite(tgt, offset, Insert(run, tgt, offset, head));
    forall k | offset <= k < head
      ensures r[k] == if k - offset < |run| then run[k - offset] else tgt[k - |run|]
    {
      assert r[k] == (run + tgt[offset..head])[k - offset];
    }
  }

  /** An insertion at the root puts the run's first locus there. */
  lemma InsertRoot(run: seq<Symbol>, tgt: seq<Symbol>, head: nat)
    requires 1 <= head <= |tgt| && |run| >= 1
    ensures Overwrite(tgt, 0, Insert(run, tgt, 0, head))[0] == run[0]
  {
    assert (run + tgt[0..head])[0] == run[0];
  }

  /** Inserting head symbols keeps a gene legal. */
  lemma InsertAlleles(cfg: Config, head: nat, run: seq<Symbol>, tgt: seq<Symbol>, offset: nat)
    requires AllelesOk(cfg, head, tgt) && offset <= head <= |tgt|
    requires forall k :: 0 <= k < |run| ==> run[k] in cfg.Symbols()
    ensures AllelesOk(cfg, head, Overwrite(tgt, offset, Insert(run, tgt, offset, head)))
  {
    InsertLoci(run, tgt, offset, head);
    var r := Overwrite(tgt, offset, Insert(run, tgt, offset, head));
    forall k | 0 <= k < |r|
      ensures cfg.Allowed(head, k, r[k])
    {
      if offset <= k < head && k - offset >= |run| {
        assert cfg.Allowed(head, k - |run|, tgt[k - |run|]);
      }
    }
  }

  /** Every locus of a legal gene may sit in a head. */
  lemma RunSymbols(cfg: Config, head: nat, a: seq<Symbol>, start: nat, end: nat)
    requires AllelesOk(cfg, head, a) && start <= end <= |a|
    ensures forall k :: 0 <= k < end - start ==> a[start..end][k] in cfg.Symbols()
  {
    forall k | 0 <= k < end - start
      ensures a[start..end][k] in cfg.Symbols()
    {
      assert a[start..end][k] == a[start + k];
      assert cfg.Allowed(head, start + k, a[start + k]);
    }
  }
}
