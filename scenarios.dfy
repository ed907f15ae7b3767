/** Whole-store scenarios of the repository operations, proved from an empty store. */
module Scenarios {
  import opened Contracts
  import opened Outcomes
  import opened Models
  import opened Listing
  import opened Queries

  /** Adding the same item twice gives one line of two pieces, each piece charged at the
      item's price of that moment. */
  method RepeatedAdd() returns (lines: seq<CartItem>, price: real)
    ensures lines == [CartItem(0, "apple", 2, true)]
    ensures price == 3.0
  {
    var store := new Store();
    var apple := store.GenerateNewItem(ItemRequest("apple", 1.5));
    var cart := store.GenerateNewCart();
    var first := store.AddItemToCart(cart.id, apple.id);
    assert cart.items == [CartItem(0, "apple", 1, true)] && cart.price == 1.5;
    var second := store.AddItemToCart(cart.id, apple.id);
    lines := cart.items;
    price := cart.price;
  }

  /** Replacing an item's price after it was added takes effect on the item and leaves the
      cart, its price included, as it was. */
  method RepriceAfterAdd() returns (lines: seq<CartItem>, cartPrice: real, itemPrice: real)
    ensures lines == [CartItem(0, "apple", 1, true)]
    ensures cartPrice == 1.5 && itemPrice == 9.0
  {
    var store := new Store();
    var apple := store.GenerateNewItem(ItemRequest("apple", 1.5));
    var cart := store.GenerateNewCart();
    var first := store.AddItemToCart(cart.id, apple.id);
    assert cart.items == [CartItem(0, "apple", 1, true)] && cart.price == 1.5;
    assert store.items == [apple] && !apple.deleted;
    var updated := store.UpdateItem(apple.id, ItemRequest("apple", 9.0));
    assert updated == Success(apple);
    lines := cart.items;
    cartPrice := cart.price;
    itemPrice := apple.price;
  }

  /** A deleted item is left out of a default listing, one that does not ask for deleted items. */
  method DeletedItemHidden() returns (hidden: Result<seq<Item>>)
    ensures hidden == Success([])
  {
    var store := new Store();
    var pear := store.GenerateNewItem(ItemRequest("pear", 2.0));
    var deleted := store.DeleteItem(pear.id);
    hidden := store.GetItems(0, 10, None, None);
  }

  /** A deleted item stays stored: a listing that asks for deleted items holds it, and
      nothing else. */
  method DeletedItemShown() returns (shown: Result<seq<Item>>, pear: Item)
    ensures shown == Success([pear])
    ensures pear.id == 0 && pear.deleted
  {
    var store := new Store();
    pear := store.GenerateNewItem(ItemRequest("pear", 2.0));
    var deleted := store.DeleteItem(pear.id);
    shown := store.GetItems(0, 10, None, None, true);
    store.UnboundedItemPage(0, 10);
    assert Window(1, 0, 10) == [0];
    assert store.PageItems(0, 10, None, None, true) == store.ItemsAt([0]);
    assert store.ItemsAt([0]) == [pear];
  }

  /** Adding to a cart does not reject a deleted item. */
  method DeletedItemAddable() returns (added: Result<Cart>)
    ensures added.Success? && added.value.items == [CartItem(0, "pear", 1, true)]
  {
    var store := new Store();
    var pear := store.GenerateNewItem(ItemRequest("pear", 2.0));
    var deleted := store.DeleteItem(pear.id);
    var cart := store.GenerateNewCart();
    added := store.AddItemToCart(cart.id, pear.id);
  }
}
