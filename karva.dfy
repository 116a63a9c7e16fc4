/** Karva (breadth-first) encoding of one gene: the coding-region count, the
    breadth-first decoded expression tree, and the reverse-scan evaluation
    that `KarvaGene` and the flat-list chromosomes run over a value buffer. */
module Karva {
  import opened Symbols

  /** Sum of the argument counts of the loci before position `i`. */
  function ArgSum(g: seq<Symbol>, i: nat): nat
    requires i <= |g|
  {
    if i == 0 then 0 else ArgSum(g, i - 1) + Arity(g[i - 1])
  }

  /** Loci still owed to the tree after reading the first `i` loci in
      breadth-first order: one root plus every argument, minus what was read. */
  function Open(g: seq<Symbol>, i: nat): int
    requires i <= |g|
  {
    1 + ArgSum(g, i) - i
  }

  /** `e` loci form one closed tree: nothing is owed after `e` loci and
      something still was after every shorter non-empty prefix. */
  ghost predicate Closed(g: seq<Symbol>, e: nat)
  {
    1 <= e <= |g| && Open(g, e) == 0 &&
    forall i :: 1 <= i < e ==> Open(g, i) > 0
  }

  /** The head/tail sizing of a gene: functions appear only in the first
      `head` loci, no function takes more than `m` arguments, and the gene
      has at least `head + head * (m - 1) + 1` loci. */
  ghost predicate Sized(g: seq<Symbol>, head: nat, m: nat)
  {
    |g| >= head * m + 1 &&
    (forall i :: head <= i < |g| ==> !g[i].Func?) &&
    (forall i :: 0 <= i < |g| ==> Arity(g[i]) <= m)
  }

  lemma {:induction false} ArgSumMono(g: seq<Symbol>, i: nat, j: nat)
    requires i <= j <= |g|
    ensures ArgSum(g, i) <= ArgSum(g, j)
    decreases j - i
  {
    if i < j {
      ArgSumMono(g, i, j - 1);
    }
  }

  /** Only head loci contribute arguments, at most `m` each. */
  lemma {:induction false} ArgSumBound(g: seq<Symbol>, head: nat, m: nat, i: nat)
    requires Sized(g, head, m)
    requires i <= |g|
    ensures ArgSum(g, i) <= m * (if i < head then i else head)
  {
    if i > 0 {
      ArgSumBound(g, head, m, i - 1);
      if i - 1 < head {
        assert Arity(g[i - 1]) <= m;
        assert m * (i - 1) + m == m * i;
      } else {
        assert Arity(g[i - 1]) == 0;
        assert ArgSum(g, i) == ArgSum(g, i - 1);
      }
    }
  }

  /** A sized gene owes nothing once all of it has been read. */
  lemma SizedExhausts(g: seq<Symbol>, head: nat, m: nat)
    requires Sized(g, head, m)
    ensures |g| >= 1 && Open(g, |g|) <= 0
  {
    ArgSumBound(g, head, m, |g|);
    assert ArgSum(g, |g|) <= m * head;
  }

  /** The first closing point at or after `i`: the owed count falls by at most
      one per locus, so it reaches 0 before it can go negative. */
  function CloseFrom(g: seq<Symbol>, i: nat): (e: nat)
    requires 1 <= i <= |g|
    requires Open(g, i) >= 0 && Open(g, |g|) <= 0
    ensures i <= e <= |g| && Open(g, e) == 0
    ensures forall j :: i <= j < e ==> Open(g, j) > 0
    decreases |g| - i
  {
    if Open(g, i) == 0 then i else CloseFrom(g, i + 1)
  }

  /** Number of loci in the coding region (the source's `coding` is this
      minus one). */
  function CodingLength(g: seq<Symbol>): (e: nat)
    requires |g| >= 1 && Open(g, |g|) <= 0
    ensures Closed(g, e)
  {
    CloseFrom(g, 1)
  }

  /** There is only one closing point. */
  lemma ClosedUnique(g: seq<Symbol>, e1: nat, e2: nat)
    requires Closed(g, e1) && Closed(g, e2)
    ensures e1 == e2
  {
  }

  /** A terminal root closes the tree at once: coding index 0. */
  lemma TerminalRoot(g: seq<Symbol>)
    requires |g| >= 1 && Open(g, |g|) <= 0
    requires !g[0].Func?
    ensures CodingLength(g) == 1
  {
    assert ArgSum(g, 1) == ArgSum(g, 0) + Arity(g[0]) == 0;
    assert Open(g, 1) == 0;
    ClosedUnique(g, 1, CodingLength(g));
  }

  /** The coding region consumes exactly one root plus the arguments of the
      loci inside it. */
  lemma CodingCount(g: seq<Symbol>)
    requires |g| >= 1 && Open(g, |g|) <= 0
    ensures CodingLength(g) == 1 + ArgSum(g, CodingLength(g))
  {
  }

  /** The mutation tests' gene `[z, z, 'y', 3, 4]` (two binary functions,
      an attribute and two numbers): all five loci code, so the last coding
      index is 4. */
  lemma CodingFixture()
    ensures var g := [Func(2, 0), Func(2, 0), Attr("y"), Const(Num(3.0)), Const(Num(4.0))];
      Open(g, |g|) <= 0 && CodingLength(g) == 5
  {
    var g := [Func(2, 0), Func(2, 0), Attr("y"), Const(Num(3.0)), Const(Num(4.0))];
    assert ArgSum(g, 5) == 4;
    assert Open(g, 1) == 2 && Open(g, 2) == 3 && Open(g, 3) == 2 && Open(g, 4) == 1;
    assert Closed(g, 5);
    ClosedUnique(g, 5, CodingLength(g));
  }

  // ---------------------------------------------------------------------
  // Breadth-first decoding

  /** Expression tree of a gene. */
  datatype Tree = Leaf(sym: Symbol) | Node(sym: Symbol, kids: seq<Tree>)

  /** Position of the first child of locus `j` in breadth-first order. */
  function FirstChild(g: seq<Symbol>, j: nat): nat
    requires j <= |g|
  {
    1 + ArgSum(g, j)
  }

  /** Inside a closed tree the children of locus `j` sit after `j` and inside
      the coding region. */
  lemma ChildrenInside(g: seq<Symbol>, e: nat, j: nat)
    requires Closed(g, e) && j < e
    ensures j < FirstChild(g, j)
    ensures FirstChild(g, j) + Arity(g[j]) <= e
  {
    if j > 0 {
      assert Open(g, j) > 0;
    }
    ArgSumMono(g, j + 1, e);
  }

  /** The subtree rooted at locus `j` of the tree formed by the first `e`
      loci. */
  function DecodeAt(g: seq<Symbol>, e: nat, j: nat): Tree
    requires Closed(g, e) && j < e
    decreases e - j
  {
    ChildrenInside(g, e, j);
    var first := FirstChild(g, j);
    if g[j].Func? then
      Node(g[j], seq(g[j].arity, k requires 0 <= k < g[j].arity => DecodeAt(g, e, first + k)))
    else
      Leaf(g[j])
  }

  /** The expression tree a gene encodes. */
  function Decode(g: seq<Symbol>): Tree
    requires |g| >= 1 && Open(g, |g|) <= 0
  {
    DecodeAt(g, CodingLength(g), 0)
  }

  /** Recursive evaluation of a tree: a leaf takes its terminal's value, a
      node applies its function to its children's values. */
  function EvalTree(t: Tree, leaf: Symbol -> Value, apply: (Symbol, seq<Value>) -> Value): Value
  {
    match t
    case Leaf(s) => leaf(s)
    case Node(s, kids) =>
      apply(s, seq(|kids|, k requires 0 <= k < |kids| => EvalTree(kids[k], leaf, apply)))
  }

  /** Initial buffer value of a locus in `KarvaGene.__call__` and in 0.1.2
      `evaluate`: None for a function, the constant itself, or the attribute
      read off the object. */
  function Seed(obj: string -> Value): Symbol -> Value
  {
    (s: Symbol) => match s
         case Func(_, _) => None
         case Const(v) => v
         case Attr(name) => obj(name)
  }

  // ---------------------------------------------------------------------
  // The imperative loops shared by every snapshot

  /** The coding-region count of the gene `loci[start..end]`, run on the
      whole list as the source does: `index, args = start, 1; while args: ...`.
      Returns the absolute index of the last coding locus. */
  method CountCoding(loci: seq<Symbol>, start: nat, end: nat, ghost head: nat, ghost m: nat)
    returns (coding: nat)
    requires start < end <= |loci|
    requires Sized(loci[start..end], head, m)
    ensures start <= coding < end
    ensures Closed(loci[start..end], coding - start + 1)
  {
    ghost var g := loci[start..end];
    SizedExhausts(g, head, m);
    ghost var e := CodingLength(g);
    var index, args := start, 1;
    while args != 0
      invariant start <= index <= start + e
      invariant args == Open(g, index - start)
      invariant forall i :: 1 <= i <= index - start && i < e ==> Open(g, i) > 0
      decreases e - (index - start)
    {
      var nextArgs := 0;
      ghost var level := index;
      var k := 0;
      while k < args
        invariant 0 <= k <= args
        invariant index == level + k
        invariant level - start + k <= e
        invariant nextArgs == ArgSum(g, index - start) - ArgSum(g, level - start)
        invariant Open(g, index - start) == args - k + nextArgs
        invariant nextArgs >= 0
      {
        assert Open(g, index - start) > 0;
        assert index - start < e;
        assert loci[index] == g[index - start];
        if loci[index].Func? {
          nextArgs := nextArgs + loci[index].arity;
        }
        index := index + 1;
        k := k + 1;
        assert Open(g, index - start) > 0 || (index - start == e);
      }
      args := nextArgs;
    }
    coding := index - 1;
  }

  /** A function locus evaluates to its function applied to its children's
      values, taken in breadth-first order. */
  lemma NodeValue(g: seq<Symbol>, e: nat, r: nat, args: seq<Value>,
                  leaf: Symbol -> Value, apply: (Symbol, seq<Value>) -> Value)
    requires Closed(g, e) && r < e && g[r].Func? && |args| == g[r].arity
    requires FirstChild(g, r) + g[r].arity <= e
    requires forall k :: 0 <= k < |args| ==>
      args[k] == EvalTree(DecodeAt(g, e, FirstChild(g, r) + k), leaf, apply)
    ensures apply(g[r], args) == EvalTree(DecodeAt(g, e, r), leaf, apply)
  {
    var t := DecodeAt(g, e, r);
    assert t == Node(g[r], seq(g[r].arity, k requires 0 <= k < g[r].arity => DecodeAt(g, e, FirstChild(g, r) + k)));
    assert args == seq(|t.kids|, k requires 0 <= k < |t.kids| => EvalTree(t.kids[k], leaf, apply));
  }

  /** The values of every subtree of the tree formed by the first `e` loci,
      by the position of its root. */
  ghost function SubtreeValues(g: seq<Symbol>, e: nat, leaf: Symbol -> Value,
                               apply: (Symbol, seq<Value>) -> Value): (w: seq<Value>)
    requires Closed(g, e)
    ensures |w| == e
    ensures forall j :: 0 <= j < e ==> w[j] == EvalTree(DecodeAt(g, e, j), leaf, apply)
  {
    seq(e, j requires 0 <= j < e => EvalTree(DecodeAt(g, e, j), leaf, apply))
  }

  /** A terminal locus evaluates to its leaf value. */
  lemma LeafValue(g: seq<Symbol>, e: nat, r: nat, leaf: Symbol -> Value,
                  apply: (Symbol, seq<Value>) -> Value)
    requires Closed(g, e) && r < e && !g[r].Func?
    ensures EvalTree(DecodeAt(g, e, r), leaf, apply) == leaf(g[r])
  {
  }

  /** The slots of a function locus's children, read off a buffer that
      holds the values of every later coding locus, give the locus's value. */
  lemma ChildValues(g: seq<Symbol>, e: nat, r: nat, s: seq<Value>, start: nat, args: seq<Value>,
                    w: seq<Value>, leaf: Symbol -> Value, apply: (Symbol, seq<Value>) -> Value)
    requires Closed(g, e) && r < e && g[r].Func? && start + e <= |s|
    requires w == SubtreeValues(g, e, leaf, apply)
    requires forall j :: start + r < j < start + e ==> s[j] == w[j - start]
    requires start + FirstChild(g, r) + g[r].arity <= |s|
    requires args == s[start + FirstChild(g, r)..start + FirstChild(g, r) + g[r].arity]
    ensures apply(g[r], args) == w[r]
  {
    ChildrenInside(g, e, r);
    forall k | 0 <= k < g[r].arity
      ensures args[k] == EvalTree(DecodeAt(g, e, FirstChild(g, r) + k), leaf, apply)
    {
      assert args[k] == s[start + FirstChild(g, r) + k];
    }
    NodeValue(g, e, r, args, leaf, apply);
  }

  /** The reverse scan of `KarvaGene.__call__` and of `evaluate` for the gene
      `loci[start..end]` whose last coding locus is `coding`: a function at
      `i` replaces its slot by its result on the slots just below the
      high-water `index`, then lowers `index` by its arity.  Afterwards every
      coding slot holds the value of its breadth-first subtree, and no slot
      outside `[start, coding]` was touched. */
  method Scan(buf: array<Value>, loci: seq<Symbol>, start: nat, end: nat, coding: nat,
              leaf: Symbol -> Value, apply: (Symbol, seq<Value>) -> Value)
    requires start <= coding < end <= |loci| == buf.Length
    requires Closed(loci[start..end], coding - start + 1)
    requires forall j :: start <= j <= coding && !loci[j].Func? ==> buf[j] == leaf(loci[j])
    modifies buf
    ensures forall j :: start <= j <= coding ==>
      buf[j] == EvalTree(DecodeAt(loci[start..end], coding - start + 1, j - start), leaf, apply)
    ensures forall j :: 0 <= j < buf.Length && !(start <= j <= coding) ==> buf[j] == old(buf[j])
  {
    ghost var g := loci[start..end];
    ghost var e := coding - start + 1;
    ghost var w := SubtreeValues(g, e, leaf, apply);
    var index := coding + 1;
    var i := coding + 1;
    while i > start
      invariant start <= i <= coding + 1
      invariant index == start + FirstChild(g, i - start)
      invariant forall j :: i <= j <= coding ==> buf[j] == w[j - start]
      invariant forall j :: 0 <= j < buf.Length && !(i <= j <= coding) ==> buf[j] == old(buf[j])
    {
      i := i - 1;
      index := ScanStep(buf, loci, start, end, coding, i, index, g, e, w, leaf, apply);
    }
  }

  /** One step of the reverse scan, at locus `i`: a function replaces its
      slot by its value, read from its children's slots just below `index`;
      a terminal's slot already holds its value. */
  method ScanStep(buf: array<Value>, loci: seq<Symbol>, start: nat, end: nat, coding: nat, i: nat,
                  index: nat, ghost g: seq<Symbol>, ghost e: nat, ghost w: seq<Value>,
                  leaf: Symbol -> Value, apply: (Symbol, seq<Value>) -> Value)
    returns (next: nat)
    requires start <= i <= coding < end <= |loci| == buf.Length
    requires g == loci[start..end] && e == coding - start + 1 && Closed(g, e)
    requires w == SubtreeValues(g, e, leaf, apply)
    requires index == start + FirstChild(g, i - start + 1)
    requires forall j :: i < j <= coding ==> buf[j] == w[j - start]
    requires !loci[i].Func? ==> buf[i] == leaf(loci[i])
    modifies buf
    ensures buf[i] == w[i - start]
    ensures forall j :: 0 <= j < buf.Length && j != i ==> buf[j] == old(buf[j])
    ensures next == start + FirstChild(g, i - start)
  {
    var r := i - start;
    assert loci[i] == g[r];
    ChildrenInside(g, e, r);
    assert FirstChild(g, r + 1) == FirstChild(g, r) + Arity(g[r]);
    next := index;
    if loci[i].Func? {
      var num := loci[i].arity;
      var args := buf[index - num..index];
      ChildValues(g, e, r, buf[..], start, args, w, leaf, apply);
      buf[i] := apply(loci[i], args);
      next := index - num;
    } else {
      LeafValue(g, e, r, leaf, apply);
    }
  }
}
