/** The stored entities (`store/models.py`). */
module Models {
  import opened Contracts

  /** A sellable item. Its id is assigned once and never written again. */
  class Item {
    const id: int
    var name: string
    var price: real
    var deleted: bool

    /** `Item.from_request`: a new, active item. */
    constructor FromRequest(id: int, request: ItemRequest)
      ensures this.id == id
      ensures name == request.name && price == request.price
      ensures !deleted
    {
      this.id := id;
      name := request.name;
      price := request.price;
      deleted := false;
    }

    method UpdateName(name: string)
      modifies this`name
      ensures this.name == name
    {
      this.name := name;
    }

    method UpdatePrice(price: real)
      modifies this`price
      ensures this.price == price
    {
      this.price := price;
    }

    /** Replaces both editable fields; id and deleted flag are out of its frame. */
    method Update(request: ItemRequest)
      modifies this`name, this`price
      ensures name == request.name && price == request.price
    {
      UpdateName(request.name);
      UpdatePrice(request.price);
    }
  }

  /** A line of a cart: a snapshot of an item taken when it was first added. */
  datatype CartItem = CartItem(id: int, itemName: string, quantity: int, available: bool)
  {
    /** `CartItem.from_item`: a one-piece line carrying the item's id and current name. */
    static function FromItem(item: Item): (line: CartItem)
      reads item
      ensures line.id == item.id && line.itemName == item.name
      ensures line.quantity == 1 && line.available
    {
      CartItem(item.id, item.name, 1, true)
    }
  }

  /** A cart: its lines in insertion order and a running price total. */
  class Cart {
    const id: int
    var items: seq<CartItem>
    var price: real

    /** `Cart.from_id`: an empty cart. */
    constructor FromId(id: int)
      ensures this.id == id && items == [] && price == 0.0
    {
      this.id := id;
      items := [];
      price := 0.0;
    }
  }
}
