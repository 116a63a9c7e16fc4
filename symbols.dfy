/** Gene symbols, the values they evaluate to, and a chromosome class's
    configuration (its function and terminal sets). */
module Symbols {

  /** The run-time values a gene produces.  Python is dynamically typed; the
      model keeps the kinds the library meets: None (the seed of a function
      slot), booleans, numbers and strings. */
  datatype Value = None | Bool(b: bool) | Num(x: real) | Str(s: string)

  /** Python truthiness of a value. */
  predicate Truthy(v: Value)
  {
    match v
    case None => false
    case Bool(b) => b
    case Num(x) => x != 0.0
    case Str(s) => s != ""
  }

  /** A locus of a gene: a function (callable with `arity` arguments, told
      apart from the other functions by `id`), a numeric constant, or the name
      of an attribute of the object the gene is evaluated against. */
  datatype Symbol = Func(arity: nat, id: nat) | Const(v: Value) | Attr(name: string)

  /** Number of arguments a locus consumes: a function's argument count, 0 for
      a terminal. */
  function Arity(s: Symbol): nat
  {
    if s.Func? then s.arity else 0
  }

  /** The class-level symbol sets of a chromosome type. */
  datatype Config = Config(functions: seq<Symbol>, terminals: seq<Symbol>)
  {
    /** Functions are callables and terminals are not. */
    predicate Ok()
    {
      (forall i :: 0 <= i < |functions| ==> functions[i].Func?) &&
      (forall i :: 0 <= i < |terminals| ==> !terminals[i].Func?)
    }

    /** What may sit in a head: `functions + terminals`. */
    function Symbols(): seq<Symbol>
    {
      functions + terminals
    }

    /** The maximum argument count of the functions, 0 when there are none. */
    function MaxArity(): (m: nat)
      ensures forall i :: 0 <= i < |functions| ==> Arity(functions[i]) <= m
      ensures |functions| == 0 ==> m == 0
      ensures |functions| > 0 ==> exists i :: 0 <= i < |functions| && Arity(functions[i]) == m
    {
      MaxArityOf(functions)
    }

    /** Symbols allowed at position `i` of a gene with head length `head`. */
    predicate Allowed(head: nat, i: nat, s: Symbol)
    {
      if i < head then s in Symbols() else s in terminals
    }
  }

  function MaxArityOf(fs: seq<Symbol>): (m: nat)
    ensures forall i :: 0 <= i < |fs| ==> Arity(fs[i]) <= m
    ensures |fs| == 0 ==> m == 0
    ensures |fs| > 0 ==> exists i :: 0 <= i < |fs| && Arity(fs[i]) == m
  {
    if |fs| == 0 then 0
    else
      var rest := MaxArityOf(fs[1..]);
      assert forall i :: 1 <= i < |fs| ==> fs[i] == fs[1..][i - 1];
      if Arity(fs[0]) >= rest then Arity(fs[0]) else rest
  }

  /** The tail length `head * (arity - 1) + 1`, where Python's `xrange` of a
      negative count (no functions and head > 1) gives an empty tail. */
  function TailLength(head: nat, arity: nat): nat
  {
    if head * (arity - 1) + 1 < 0 then 0 else head * (arity - 1) + 1
  }

  function GeneLength(head: nat, arity: nat): (n: nat)
    ensures n >= 1
  {
    head + TailLength(head, arity)
  }

  lemma GeneLengthCovers(head: nat, arity: nat)
    ensures GeneLength(head, arity) >= head * arity + 1
    ensures arity >= 1 ==> GeneLength(head, arity) == head * arity + 1
  {
  }
}
