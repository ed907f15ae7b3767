/** Request shapes accepted by the item operations (`api/item/contracts.py`).
    Only the shapes are kept; field validation belongs to the web framework. */
module Contracts {

  /** An optional value: `None` stands for a field or a bound that was not supplied. */
  datatype Option<+T> = None | Some(value: T)

  /** Full replacement of an item's editable fields: both are required. */
  datatype ItemRequest = ItemRequest(name: string, price: real)

  /** Partial update: each field is applied only when it is present. */
  datatype ItemPatchRequest = ItemPatchRequest(name: Option<string>, price: Option<real>)
}
