/** Identifier sequences: one independent counter per entity kind,
    yielding 0, 1, 2, ... (`int_id_generator` and `next(...)`). */
module Ids {

  /** The generator's state is the value it will yield next. */
  class IdGenerator {
    var nextId: nat

    constructor ()
      ensures nextId == 0
    {
      nextId := 0;
    }

    /** Yields the current value and advances by one. */
    method Next() returns (id: nat)
      modifies this
      ensures id == old(nextId)
      ensures nextId == old(nextId) + 1
    {
      id := nextId;
      nextId := nextId + 1;
    }
  }
}
