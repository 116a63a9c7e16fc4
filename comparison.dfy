/** The comparison non-terminals: each compares its two arguments and
    returns one of them.  Arguments are numbers. */
module Comparison {

  /** `equal(x, y)`: x when the two are equal, else y.  Either way the
      result equals y. */
  function Equal(x: real, y: real): (r: real)
    ensures r == y
  {
    if x == y then x else y
  }

  /** `unequal(x, y)`: x when the two differ, else y.  Either way the
      result equals x. */
  function Unequal(x: real, y: real): (r: real)
    ensures r == x
  {
    if x != y then x else y
  }

  /** `less(x, y)`: x when x is the smaller, else y; the minimum. */
  function Less(x: real, y: real): (r: real)
    ensures r <= x && r <= y
    ensures r == x || r == y
  {
    if x < y then x else y
  }

  /** `greater(x, y)`: x when x is the larger, else y; the maximum. */
  function Greater(x: real, y: real): (r: real)
    ensures r >= x && r >= y
    ensures r == x || r == y
  {
    if x > y then x else y
  }

  /** `less_or_equal(x, y)`: x when x <= y, else y; also the minimum. */
  function LessOrEqual(x: real, y: real): (r: real)
    ensures r <= x && r <= y
    ensures r == x || r == y
  {
    if x <= y then x else y
  }

  /** `greater_or_equal(x, y)`: x when x >= y, else y; also the maximum. */
  function GreaterOrEqual(x: real, y: real): (r: real)
    ensures r >= x && r >= y
    ensures r == x || r == y
  {
    if x >= y then x else y
  }

  /** The strict and non-strict forms agree: they differ only when x == y,
      where both arguments are the same number. */
  lemma StrictAgrees(x: real, y: real)
    ensures Less(x, y) == LessOrEqual(x, y)
    ensures Greater(x, y) == GreaterOrEqual(x, y)
  {
  }

  /** Minimum and maximum split the pair: together they are the two
      arguments, and swapping the arguments does not change them. */
  lemma MinMaxSplit(x: real, y: real)
    ensures Less(x, y) + Greater(x, y) == x + y
    ensures Less(x, y) == Less(y, x) && Greater(x, y) == Greater(y, x)
    ensures Less(x, y) <= Greater(x, y)
  {
  }

  /** The fixtures of the comparison tests. */
  lemma Fixtures()
    ensures Equal(1.0, 1.0) == 1.0 && Equal(1.0, 2.0) == 2.0
    ensures Unequal(1.0, 2.0) == 1.0 && Unequal(2.0, 2.0) == 2.0
    ensures Less(1.0, 2.0) == 1.0 && Less(3.0, 2.0) == 2.0
    ensures Greater(1.0, 2.0) == 2.0 && Greater(3.0, 2.0) == 3.0
  {
  }
}
