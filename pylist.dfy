/** Python list slicing as the chromosome operators use it. */
module PyList {

  /** A slice bound as Python reads it: a negative bound counts from the end,
      and the result is clipped to `[0, n]`. */
  function Bound(i: int, n: nat): (b: nat)
    ensures b <= n
    ensures 0 <= i <= n ==> b == i
    ensures i < 0 && i + n >= 0 ==> b == i + n
    ensures i > n ==> b == n
    ensures i + n < 0 ==> b == 0
  {
    var j := if i < 0 then i + n else i;
    if j < 0 then 0 else if j > n then n else j
  }

  /** `s[lo:hi]`. */
  function Slice<T>(s: seq<T>, lo: int, hi: int): (r: seq<T>)
    ensures |r| == if Bound(lo, |s|) < Bound(hi, |s|) then Bound(hi, |s|) - Bound(lo, |s|) else 0
    ensures forall k :: 0 <= k < |r| ==> r[k] == s[Bound(lo, |s|) + k]
  {
    var a, b := Bound(lo, |s|), Bound(hi, |s|);
    if a < b then s[a..b] else []
  }

  /** `list(reversed(s))`. */
  function Reversed<T>(s: seq<T>): (r: seq<T>)
    ensures |r| == |s|
    ensures forall k :: 0 <= k < |s| ==> r[k] == s[|s| - 1 - k]
  {
    seq(|s|, k requires 0 <= k < |s| => s[|s| - 1 - k])
  }

  /** Reversing twice gives the list back. */
  lemma ReversedTwice<T>(s: seq<T>)
    ensures Reversed(Reversed(s)) == s
  {
    var r := Reversed(Reversed(s));
    assert forall k :: 0 <= k < |s| ==> r[k] == s[k] by {
      forall k | 0 <= k < |s|
        ensures r[k] == s[k]
      {
        assert r[k] == Reversed(s)[|s| - 1 - k];
      }
    }
  }

  /** Reversal moves the last element to the front. */
  lemma ReversedCons<T>(s: seq<T>)
    requires |s| >= 1
    ensures Reversed(s) == [s[|s| - 1]] + Reversed(s[..|s| - 1])
  {
  }

  /** Reversal is a permutation: it keeps every element with its
      multiplicity. */
  lemma {:induction false} ReversedPermutes<T>(s: seq<T>)
    ensures multiset(Reversed(s)) == multiset(s)
    decreases |s|
  {
    if |s| >= 1 {
      var init := s[..|s| - 1];
      ReversedCons(s);
      ReversedPermutes(init);
      assert s == init + [s[|s| - 1]];
    }
  }

  function Min(a: int, b: int): int
  {
    if a <= b then a else b
  }

  function Max(a: int, b: int): int
  {
    if a >= b then a else b
  }
}
