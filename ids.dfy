/** The class-level organism counter `__next_id` shared by every chromosome
    of one class. */
module Ids {
  class IdCounter {
    var next: nat

    /** The counter starts at 1, as `__next_id = 1` in the class body. */
    constructor ()
      ensures next == 1
    {
      next := 1;
    }

    /** Take the current number and advance the counter. */
    method Take() returns (id: nat)
      modifies this
      ensures id == old(next) && next == old(next) + 1
    {
      id := next;
      next := next + 1;
    }
  }
}
