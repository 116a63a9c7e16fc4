/** Linkers combine the values of the genes of a multigenic chromosome.
    They take any number of arguments. */
module Linkers {
  import opened Symbols

  datatype Error = TypeError
  datatype Result<T> = Ok(value: T) | Err(error: Error)

  /** The number Python's `+` sees in a value: booleans count as 0 and 1;
      None and strings cannot be added to a number. */
  function AsNumber(v: Value): Result<real>
  {
    match v
    case Num(x) => Ok(x)
    case Bool(b) => Ok(if b then 1.0 else 0.0)
    case None => Err(TypeError)
    case Str(_) => Err(TypeError)
  }

  /** A reference sum of a list of numbers. */
  function Total(xs: seq<real>): real
  {
    if |xs| == 0 then 0.0 else Total(xs[..|xs| - 1]) + xs[|xs| - 1]
  }

  /** `sum_linker(*args)` = `sum(args)`: starting from 0, add the arguments
      left to right; a non-number raises TypeError. */
  function SumLinker(args: seq<Value>): (r: Result<real>)
    ensures r.Err? <==> exists i :: 0 <= i < |args| && AsNumber(args[i]).Err?
    ensures r.Ok? ==> exists xs: seq<real> ::
      |xs| == |args| && r.value == Total(xs) &&
      forall i :: 0 <= i < |args| ==> AsNumber(args[i]) == Ok(xs[i])
  {
    if |args| == 0 then
      assert Total([]) == 0.0;
      Ok(0.0)
    else
      var init := args[..|args| - 1];
      var rest := SumLinker(init);
      assert forall i :: 0 <= i < |init| ==> init[i] == args[i];
      match rest
      case Err(e) => Err(e)
      case Ok(s) =>
        match AsNumber(args[|args| - 1])
        case Err(e) => Err(e)
        case Ok(x) =>
          var xs: seq<real> :| |xs| == |init| && s == Total(xs) &&
            forall i :: 0 <= i < |init| ==> AsNumber(init[i]) == Ok(xs[i]);
          assert (xs + [x])[..|xs + [x]| - 1] == xs;
          Ok(s + x)
  }

  /** The cases the library relies on: no gene sums to 0 and a single gene
      to its own value. */
  lemma SumLinkerSmall(x: real)
    ensures SumLinker([]) == Ok(0.0)
    ensures SumLinker([Num(x)]) == Ok(x)
  {
    assert [Num(x)][..0] == [];
  }

  /** Summing is compositional: the numbers of a concatenation sum to the
      sum of the two parts. */
  lemma {:induction false} SumLinkerConcat(a: seq<Value>, b: seq<Value>)
    ensures SumLinker(a + b).Ok? <==> SumLinker(a).Ok? && SumLinker(b).Ok?
    ensures SumLinker(a + b).Ok? ==>
      SumLinker(a + b).value == SumLinker(a).value + SumLinker(b).value
    decreases |b|
  {
    if |b| == 0 {
      assert a + b == a;
      assert SumLinker(b) == Ok(0.0);
    } else {
      var b' := b[..|b| - 1];
      var last := b[|b| - 1];
      assert (a + b)[..|a + b| - 1] == a + b';
      assert (a + b)[|a + b| - 1] == last;
      SumLinkerConcat(a, b');
    }
  }

  /** `or_linker(*args)` as written: the `return False` sits inside the
      loop, so the answer depends on the first argument only, and with no
      arguments the loop falls through to an implicit None. */
  function OrLinkerAsWritten(args: seq<Value>): (r: Value)
    ensures |args| == 0 ==> r == None
    ensures |args| > 0 ==> r == Bool(Truthy(args[0]))
  {
    if |args| == 0 then None
    else if Truthy(args[0]) then Bool(true)
    else Bool(false)
  }

  /** Only the first argument is looked at. */
  lemma OrLinkerAsWrittenFirstOnly(a: seq<Value>, b: seq<Value>)
    requires |a| > 0 && |b| > 0 && a[0] == b[0]
    ensures OrLinkerAsWritten(a) == OrLinkerAsWritten(b)
  {
  }

  /** A false first gene hides a true second one. */
  lemma OrLinkerAsWrittenMissesLater()
    ensures OrLinkerAsWritten([Bool(false), Bool(true)]) == Bool(false)
    ensures OrLinker([Bool(false), Bool(true)]) == Bool(true)
    ensures OrLinkerAsWritten([]) == None && OrLinker([]) == Bool(false)
  {
  }

  /** `or_linker` as its documentation describes it: True when any
      argument is truthy, False otherwise (also for no arguments). */
  function OrLinker(args: seq<Value>): (r: Value)
    ensures r == Bool(exists i :: 0 <= i < |args| && Truthy(args[i]))
  {
    if |args| == 0 then Bool(false)
    else if Truthy(args[0]) then Bool(true)
    else
      var rest := OrLinker(args[1..]);
      assert forall i :: 1 <= i < |args| ==> args[i] == args[1..][i - 1];
      rest
  }

  /** The intended linker is the as-written one exactly when the first
      truthy argument, if any, is the first one. */
  lemma OrLinkerAgreesOnFirst(args: seq<Value>)
    requires |args| > 0
    ensures OrLinker(args) == OrLinkerAsWritten(args) <==>
      Truthy(args[0]) || forall i :: 0 <= i < |args| ==> !Truthy(args[i])
  {
  }
}
