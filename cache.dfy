/** The `cache` decorator for argument-less methods: the first call that
    returns stores the result in an attribute `_<name>_cache` of that
    instance, and every later call on the same instance returns the stored
    value without calling the method again. */
module Cache {

  /** What calling the wrapped method gives: a value, or an exception
      (which propagates and stores nothing). */
  datatype Outcome<T> = Returned(value: T) | Raised

  /** The attribute name the decorator stores under: `'_%s_cache' % name`. */
  function CacheName(name: string): (r: string)
    ensures |r| == |name| + 7
    ensures r[0] == '_' && r[1..|name| + 1] == name && r[|name| + 1..] == "_cache"
  {
    "_" + name + "_cache"
  }

  /** Different methods use different attributes. */
  lemma CacheNameInjective(a: string, b: string)
    requires CacheName(a) == CacheName(b)
    ensures a == b
  {
    assert a == CacheName(a)[1..|a| + 1];
  }

  /** One cached method on one instance: `slot` is the attribute, absent
      (None) until the wrapped method has returned once. */
  class Cell<T> {
    var slot: Option<T>

    /** A new instance has no attribute yet. */
    constructor ()
      ensures slot == None
    {
      slot := None;
    }

    /** A call of the decorated method.  `outcome` is what the wrapped
        method would give if called now; `called` reports whether it was
        called. */
    method Call(outcome: Outcome<T>) returns (r: Outcome<T>, called: bool)
      modifies this
      ensures called <==> old(slot).None?
      ensures old(slot).Some? ==> r == Returned(old(slot).value) && slot == old(slot)
      ensures old(slot).None? ==> r == outcome
      ensures old(slot).None? ==> slot == (if outcome.Returned? then Some(outcome.value) else None)
      ensures (slot, r) == Step(old(slot), outcome)
    {
      match slot
      case Some(v) =>
        r, called := Returned(v), false;
      case None =>
        called := true;
        r := outcome;
        if outcome.Returned? {
          slot := Some(outcome.value);
        }
    }
  }

  datatype Option<T> = None | Some(value: T)

  /** One call as a function of the attribute and what the wrapped method
      would give: the new attribute and the call's outcome. */
  function Step<T>(slot: Option<T>, outcome: Outcome<T>): (Option<T>, Outcome<T>)
  {
    match slot
    case Some(v) => (slot, Returned(v))
    case None => (if outcome.Returned? then Some(outcome.value) else None, outcome)
  }

  /** The outcomes of a series of calls on one instance, given what the
      wrapped method would give at each of them. */
  function Replay<T>(slot: Option<T>, outcomes: seq<Outcome<T>>): (rs: seq<Outcome<T>>)
    ensures |rs| == |outcomes|
    decreases |outcomes|
  {
    if |outcomes| == 0 then []
    else
      var (next, r) := Step(slot, outcomes[0]);
      [r] + Replay(next, outcomes[1..])
  }

  /** Once the attribute is set, every call returns it. */
  lemma {:induction false} ReplayStored<T>(v: T, outcomes: seq<Outcome<T>>)
    ensures forall k :: 0 <= k < |outcomes| ==> Replay(Some(v), outcomes)[k] == Returned(v)
    decreases |outcomes|
  {
    if |outcomes| > 0 {
      ReplayStored(v, outcomes[1..]);
    }
  }

  /** On a fresh instance, the calls before the first one that returns
      raise as the wrapped method does, and that call and every later one
      give the first returned value, whatever the wrapped method would
      give later. */
  lemma {:induction false} ReplayFirstReturn<T>(outcomes: seq<Outcome<T>>, i: nat)
    requires i < |outcomes| && outcomes[i].Returned?
    requires forall k :: 0 <= k < i ==> outcomes[k].Raised?
    ensures forall k :: 0 <= k < i ==> Replay(None, outcomes)[k] == Raised
    ensures forall k :: i <= k < |outcomes| ==> Replay(None, outcomes)[k] == outcomes[i]
    decreases i
  {
    var rs := Replay(None, outcomes);
    if i == 0 {
      ReplayStored(outcomes[0].value, outcomes[1..]);
      assert rs == [outcomes[0]] + Replay(Some(outcomes[0].value), outcomes[1..]);
    } else {
      ReplayFirstReturn(outcomes[1..], i - 1);
      assert rs == [Raised] + Replay(None, outcomes[1..]);
    }
  }

  /** A single call on a new instance computes; the same call on an
      instance that has already computed does not. */
  lemma PerInstance<T>(x: T, y: T)
    ensures Replay(None, [Returned(x), Returned(y)]) == [Returned(x), Returned(x)]
    ensures Replay(None, [Returned(y)]) == [Returned(y)]
  {
    assert Replay(Some(x), [Returned(y)]) == [Returned(x)];
  }
}
