/** Typed outcomes of the store operations. The store signals failure by raising
    exceptions; here each failure is a value of `Error`. */
module Outcomes {

  /** Why an argument was refused. */
  datatype ArgumentError =
    | NegativeOffset       // offset < 0
    | NonPositiveLimit     // limit <= 0
    | NegativeBound        // a supplied bound < 0
    | UnknownCartOrItem    // add-to-cart with a cart id or an item id that is not stored

  datatype Error =
    | NotFound                          // a lookup by an id that is not stored (KeyError)
    | InvalidArgument(reason: ArgumentError)
    | InvalidState                      // a mutation of a soft-deleted item

  datatype Result<+T> = Success(value: T) | Failure(error: Error)
}
