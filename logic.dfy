/** The logic non-terminals and, or, not and if.  Python's `and` and `or`
    return one of their operands rather than a boolean; `not` returns a
    boolean.  The module's documentation says all three return booleans,
    but `and_op` and `or_op` return an operand, and the model follows the
    code. */
module Logic {
  import opened Symbols

  /** `and_op(x, y)` = `x and y`: x when x is falsy, otherwise y. */
  function AndOp(x: Value, y: Value): (r: Value)
    ensures Truthy(r) <==> Truthy(x) && Truthy(y)
    ensures r == x || r == y
  {
    if Truthy(x) then y else x
  }

  /** `or_op(x, y)` = `x or y`: x when x is truthy, otherwise y. */
  function OrOp(x: Value, y: Value): (r: Value)
    ensures Truthy(r) <==> Truthy(x) || Truthy(y)
    ensures r == x || r == y
  {
    if Truthy(x) then x else y
  }

  /** `not_op(x)` = `not x`: always a boolean. */
  function NotOp(x: Value): (r: Value)
    ensures r.Bool?
    ensures Truthy(r) <==> !Truthy(x)
  {
    Bool(!Truthy(x))
  }

  /** `if_op(x, y, z)` = `y if x else z`. */
  function IfOp(x: Value, y: Value, z: Value): (r: Value)
    ensures Truthy(x) ==> r == y
    ensures !Truthy(x) ==> r == z
  {
    if Truthy(x) then y else z
  }

  /** Which operand `and` and `or` return: the first one that decides the
      outcome. */
  lemma ShortCircuit(x: Value, y: Value)
    ensures !Truthy(x) ==> AndOp(x, y) == x
    ensures Truthy(x) ==> AndOp(x, y) == y
    ensures Truthy(x) ==> OrOp(x, y) == x
    ensures !Truthy(x) ==> OrOp(x, y) == y
  {
  }

  /** De Morgan's laws hold up to truthiness. */
  lemma DeMorgan(x: Value, y: Value)
    ensures NotOp(AndOp(x, y)) == Bool(Truthy(OrOp(NotOp(x), NotOp(y))))
    ensures NotOp(OrOp(x, y)) == Bool(Truthy(AndOp(NotOp(x), NotOp(y))))
  {
  }

  /** `if` is `or` of two `and`s as far as truthiness goes. */
  lemma IfIsChoice(x: Value, y: Value, z: Value)
    ensures Truthy(IfOp(x, y, z)) <==> Truthy(OrOp(AndOp(x, y), AndOp(NotOp(x), z)))
  {
  }

  /** `if_op` takes three arguments: a chromosome type whose function set
      holds it has maximum arity at least 3, and so genes of at least
      `3 * head + 1` loci. */
  lemma IfOpWidensGenes(cfg: Config, head: nat, id: nat)
    requires Func(3, id) in cfg.functions
    ensures cfg.MaxArity() >= 3
    ensures GeneLength(head, cfg.MaxArity()) >= 3 * head + 1
  {
    var i :| 0 <= i < |cfg.functions| && cfg.functions[i] == Func(3, id);
    assert Arity(cfg.functions[i]) == 3;
    var m := cfg.MaxArity();
    assert head * 3 <= head * m by {
      var d: nat := m - 3;
      assert head * m == head * 3 + head * d;
    }
    GeneLengthCovers(head, m);
  }
}
