/** The item and cart repository (`store/queries.py`). The module-level dictionaries and
    id generators become the fields of one `Store` object; each dictionary, whose keys are
    always exactly the ids issued so far, is a sequence indexed by id. */
module Queries {
  import opened Contracts
  import opened Outcomes
  import opened Ids
  import opened Models
  import opened Listing
  import opened CartLines

  /** The filter of `get_items`: the price is within the supplied bounds, and the item is
      active unless deleted items are asked for. */
  predicate ItemMatches(item: Item, minPrice: Option<real>, maxPrice: Option<real>, showDeleted: bool)
    reads item
  {
    InBounds(item.price, minPrice, maxPrice) && (showDeleted || !item.deleted)
  }

  /** Price bounds on the running price, quantity bounds on the total number of pieces. */
  predicate CartMatches(cart: Cart, minPrice: Option<real>, maxPrice: Option<real>,
                        minQuantity: Option<real>, maxQuantity: Option<real>)
    reads cart
  {
    InBounds(cart.price, minPrice, maxPrice)
    && InBounds(TotalQuantity(cart.items) as real, minQuantity, maxQuantity)
  }

  /** One line per item id, every line for one of the first `n` item ids, and the price and
      piece count those of the adds `adds`. */
  ghost predicate CartAccounted(cart: Cart, adds: seq<real>, n: int)
    reads cart
  {
    && WellFormed(cart.items)
    && (forall j :: 0 <= j < |cart.items| ==> 0 <= cart.items[j].id < n)
    && cart.price == Sum(adds)
    && TotalQuantity(cart.items) == |adds|
  }

  /** Adding one piece of item `id` (stored among the first `n` items) at price `p` keeps a
      cart accounted for and its lines referring to stored items. */
  lemma AddKeepsAccounted(lines: seq<CartItem>, price: real, adds: seq<real>, id: int, name: string,
                          p: real, n: int)
    requires WellFormed(lines) && price == Sum(adds) && TotalQuantity(lines) == |adds|
    requires forall j :: 0 <= j < |lines| ==> 0 <= lines[j].id < n
    requires 0 <= id < n
    ensures WellFormed(AddLine(lines, id, name))
    ensures price + p == Sum(adds + [p])
    ensures TotalQuantity(AddLine(lines, id, name)) == |adds + [p]|
    ensures forall j :: 0 <= j < |AddLine(lines, id, name)| ==> 0 <= AddLine(lines, id, name)[j].id < n
  {
    AddLineWellFormed(lines, id, name);
    SumAppend(adds, p);
  }

  /** The update half of `add_item_to_cart`: scan the cart's lines for an available line of
      `item`, add a piece to it or append a fresh one-piece line, then charge the item's
      current price to the cart. */
  method AddPiece(cart: Cart, item: Item)
    modifies cart
    ensures cart.items == AddLine(old(cart.items), item.id, item.name)
    ensures cart.price == old(cart.price) + item.price
  {
    var i := LocateLine(cart.items, item.id);
    if i < |cart.items| {
      cart.items := cart.items[i := cart.items[i].(quantity := cart.items[i].quantity + 1)];
    } else {
      var line := CartItem.FromItem(item);
      cart.items := cart.items + [line];
    }
    cart.price := cart.price + item.price;
  }

  class Store {
    const itemIds: IdGenerator
    const cartIds: IdGenerator
    /** `_item`: the item with id `k` is `items[k]`. */
    var items: seq<Item>
    /** `_cart`: the cart with id `k` is `carts[k]`. */
    var carts: seq<Cart>
    /** For the cart with id `k`, the item prices of every add applied to it, oldest first. */
    ghost var cartAdds: seq<seq<real>>

    /** Items are stored under exactly the ids their sequence has issued. */
    ghost predicate ItemsValid()
      reads this`items, itemIds
    {
      && |items| == itemIds.nextId
      && (forall k :: 0 <= k < |items| ==> items[k].id == k)
    }

    /** Carts are stored under exactly the ids their sequence has issued. */
    ghost predicate CartsValid()
      reads this`carts, cartIds
    {
      && |carts| == cartIds.nextId
      && (forall k :: 0 <= k < |carts| ==> carts[k].id == k)
    }

    /** Every cart is accounted for by the adds applied to it, and refers only to stored items. */
    ghost predicate CartsAccounted()
      reads this`carts, this`cartAdds, this`items, carts
    {
      && |cartAdds| == |carts|
      && (forall k :: 0 <= k < |carts| ==> CartAccounted(carts[k], cartAdds[k], |items|))
    }

    ghost predicate Valid()
      reads this, itemIds, cartIds, carts
    {
      && itemIds != cartIds
      && ItemsValid()
      && CartsValid()
      && CartsAccounted()
    }

    /** An empty store with both id sequences at 0. */
    constructor ()
      ensures Valid()
      ensures fresh(itemIds) && fresh(cartIds)
      ensures items == [] && carts == []
      ensures itemIds.nextId == 0 && cartIds.nextId == 0
    {
      itemIds := new IdGenerator();
      cartIds := new IdGenerator();
      items := [];
      carts := [];
      cartAdds := [];
    }

    /** `generate_new_cart`: the next cart id, never used before, holds a new empty cart. */
    method GenerateNewCart() returns (cart: Cart)
      requires Valid()
      modifies this, cartIds
      ensures Valid()
      ensures fresh(cart)
      ensures cart.id == old(cartIds.nextId) == |old(carts)|
      ensures cartIds.nextId == old(cartIds.nextId) + 1
      ensures carts == old(carts) + [cart] && items == old(items)
      ensures cartAdds == old(cartAdds) + [[]]
      ensures cart.items == [] && cart.price == 0.0
    {
      var id := cartIds.Next();
      cart := new Cart.FromId(id);
      carts := carts + [cart];
      cartAdds := cartAdds + [[]];
    }

    /** `generate_new_item`: the next item id, never used before, holds a new active item. */
    method GenerateNewItem(request: ItemRequest) returns (item: Item)
      requires Valid()
      modifies this, itemIds
      ensures Valid()
      ensures fresh(item)
      ensures item.id == old(itemIds.nextId) == |old(items)|
      ensures itemIds.nextId == old(itemIds.nextId) + 1
      ensures items == old(items) + [item] && carts == old(carts)
      ensures cartAdds == old(cartAdds)
      ensures item.name == request.name && item.price == request.price && !item.deleted
    {
      var id := itemIds.Next();
      item := new Item.FromRequest(id, request);
      items := items + [item];
    }

    /** `get_cart_from_id`: succeeds exactly for the ids the cart sequence has issued. */
    function GetCartFromId(id: int): (r: Result<Cart>)
      requires CartsValid()
      reads this, cartIds
      ensures r.Success? <==> 0 <= id < cartIds.nextId
      ensures r.Success? ==> r.value.id == id && r.value == carts[id]
      ensures r.Failure? ==> r.error == NotFound
    {
      if 0 <= id < |carts| then Success(carts[id]) else Failure(NotFound)
    }

    /** `get_item_from_id`: succeeds exactly for the ids the item sequence has issued,
        deleted items included. */
    function GetItemFromId(id: int): (r: Result<Item>)
      requires ItemsValid()
      reads this, itemIds
      ensures r.Success? <==> 0 <= id < itemIds.nextId
      ensures r.Success? ==> r.value.id == id && r.value == items[id]
      ensures r.Failure? ==> r.error == NotFound
    {
      if 0 <= id < |items| then Success(items[id]) else Failure(NotFound)
    }

    /** The condition of the `get_items` comprehension, applied to a list of stored ids. */
    function SelectItemIds(ids: seq<int>, minPrice: Option<real>, maxPrice: Option<real>, showDeleted: bool)
      : (r: seq<int>)
      requires forall id :: id in ids ==> 0 <= id < |items|
      reads this, items
      ensures |r| <= |ids|
      ensures forall id :: id in r ==> id in ids && ItemMatches(items[id], minPrice, maxPrice, showDeleted)
      ensures forall id :: id in ids && ItemMatches(items[id], minPrice, maxPrice, showDeleted) ==> id in r
      ensures Ascending(ids) ==> Ascending(r)
    {
      if ids == [] then []
      else
        assert ids[0] in ids && forall id :: id in ids[1..] ==> id in ids;
        var rest := SelectItemIds(ids[1..], minPrice, maxPrice, showDeleted);
        AscendingTail(ids);
        if ItemMatches(items[ids[0]], minPrice, maxPrice, showDeleted) then
          AscendingCons(ids[0], rest);
          [ids[0]] + rest
        else rest
    }

    /** The condition of the `get_carts` comprehension, applied to a list of stored ids. */
    function SelectCartIds(ids: seq<int>, minPrice: Option<real>, maxPrice: Option<real>,
                           minQuantity: Option<real>, maxQuantity: Option<real>): (r: seq<int>)
      requires forall id :: id in ids ==> 0 <= id < |carts|
      reads this, carts
      ensures |r| <= |ids|
      ensures forall id :: id in r ==>
                id in ids && CartMatches(carts[id], minPrice, maxPrice, minQuantity, maxQuantity)
      ensures forall id :: id in ids && CartMatches(carts[id], minPrice, maxPrice, minQuantity, maxQuantity)
                ==> id in r
      ensures Ascending(ids) ==> Ascending(r)
    {
      if ids == [] then []
      else
        assert ids[0] in ids && forall id :: id in ids[1..] ==> id in ids;
        var rest := SelectCartIds(ids[1..], minPrice, maxPrice, minQuantity, maxQuantity);
        AscendingTail(ids);
        if CartMatches(carts[ids[0]], minPrice, maxPrice, minQuantity, maxQuantity) then
          AscendingCons(ids[0], rest);
          [ids[0]] + rest
        else rest
    }

    /** The stored items under the given ids, in the same order. */
    function ItemsAt(ids: seq<int>): (r: seq<Item>)
      requires forall i :: 0 <= i < |ids| ==> 0 <= ids[i] < |items|
      reads this
      ensures |r| == |ids| && forall i :: 0 <= i < |ids| ==> r[i] == items[ids[i]]
      ensures forall id :: id in ids ==> items[id] in r
    {
      var stored := items;
      var r := seq(|ids|, i requires 0 <= i < |ids| => stored[ids[i]]);
      assert forall id | id in ids :: stored[id] in r by {
        forall id | id in ids ensures stored[id] in r {
          var i :| 0 <= i < |ids| && ids[i] == id;
          assert r[i] == stored[id];
        }
      }
      r
    }

    /** The stored carts under the given ids, in the same order. */
    function CartsAt(ids: seq<int>): (r: seq<Cart>)
      requires forall i :: 0 <= i < |ids| ==> 0 <= ids[i] < |carts|
      reads this
      ensures |r| == |ids| && forall i :: 0 <= i < |ids| ==> r[i] == carts[ids[i]]
      ensures forall id :: id in ids ==> carts[id] in r
    {
      var stored := carts;
      var r := seq(|ids|, i requires 0 <= i < |ids| => stored[ids[i]]);
      assert forall id | id in ids :: stored[id] in r by {
        forall id | id in ids ensures stored[id] in r {
          var i :| 0 <= i < |ids| && ids[i] == id;
          assert r[i] == stored[id];
        }
      }
      r
    }

    /** The ids on a page of `get_items`, ascending: exactly the matching ids of the window. */
    function PageItemIds(offset: nat, limit: int, minPrice: Option<real>, maxPrice: Option<real>,
                         showDeleted: bool): (r: seq<int>)
      requires limit > 0
      reads this, items
      ensures offset >= |items| ==> r == []
      ensures |r| <= limit
      ensures forall id :: id in r <==>
                (offset <= id < offset + limit && 0 <= id < |items| && ItemMatches(items[id], minPrice, maxPrice, showDeleted))
      ensures Ascending(r)
    {
      var window := Window(|items|, offset, limit);
      SelectItemIds(window, minPrice, maxPrice, showDeleted)
    }

    /** Omitted bounds impose no constraint: with no price bound and deleted items shown,
        the ids on a page of `get_items` are its whole id window. */
    lemma UnboundedItemPage(offset: nat, limit: int)
      requires limit > 0
      ensures PageItemIds(offset, limit, None, None, true) == Window(|items|, offset, limit)
    {
      var page := PageItemIds(offset, limit, None, None, true);
      var window := Window(|items|, offset, limit);
      forall x ensures x in page <==> x in window {
        if 0 <= x < |items| {
          assert ItemMatches(items[x], None, None, true);
        }
      }
      AscendingSameMembers(page, window);
    }

    /** The successful path of `get_items`: the id window `[offset, min(offset + limit, len))`,
        with the items outside the price bounds, and the deleted ones unless asked for, dropped. */
    function PageItems(offset: nat, limit: int, minPrice: Option<real>, maxPrice: Option<real>,
                       showDeleted: bool): (r: seq<Item>)
      requires ItemsValid() && limit > 0
      reads this, itemIds, items
      ensures offset >= |items| ==> r == []
      ensures |r| <= limit
      ensures forall i :: 0 <= i < |r| ==>
                offset <= r[i].id < offset + limit && 0 <= r[i].id < |items|
                && items[r[i].id] == r[i]
                && ItemMatches(r[i], minPrice, maxPrice, showDeleted)
      ensures forall id ::
                (offset <= id < offset + limit && 0 <= id < |items|
                 && ItemMatches(items[id], minPrice, maxPrice, showDeleted)) ==> items[id] in r
      ensures forall i, j :: 0 <= i < j < |r| ==> r[i].id < r[j].id
    {
      var ids := PageItemIds(offset, limit, minPrice, maxPrice, showDeleted);
      assert forall i :: 0 <= i < |ids| ==> ids[i] in ids;
      ItemsAt(ids)
    }

    /** `get_items`: a negative offset, a non-positive limit or a negative price bound is
        refused; otherwise the page described by `PageItems`. */
    function GetItems(offset: int, limit: int, minPrice: Option<real>, maxPrice: Option<real>,
                      showDeleted: bool := false): (r: Result<seq<Item>>)
      requires ItemsValid()
      reads this, itemIds, items
      ensures r.Failure? <==> offset < 0 || limit <= 0 || Negative(minPrice) || Negative(maxPrice)
      ensures r.Failure? ==> r.error.InvalidArgument?
      ensures r.Success? ==> offset >= 0 && limit > 0
                             && r.value == PageItems(offset, limit, minPrice, maxPrice, showDeleted)
    {
      var bounds := [minPrice, maxPrice];
      assert bounds[0] == minPrice && bounds[1] == maxPrice;
      match ValidateListing(offset, limit, bounds)
      case Some(e) => Failure(InvalidArgument(e))
      case None => Success(PageItems(offset, limit, minPrice, maxPrice, showDeleted))
    }

    /** The ids on a page of `get_carts`, ascending: exactly the matching ids of the window. */
    function PageCartIds(offset: nat, limit: int, minPrice: Option<real>, maxPrice: Option<real>,
                         minQuantity: Option<real>, maxQuantity: Option<real>): (r: seq<int>)
      requires limit > 0
      reads this, carts
      ensures offset >= |carts| ==> r == []
      ensures |r| <= limit
      ensures forall id :: id in r <==>
                (offset <= id < offset + limit && 0 <= id < |carts| && CartMatches(carts[id], minPrice, maxPrice, minQuantity, maxQuantity))
      ensures Ascending(r)
    {
      var window := Window(|carts|, offset, limit);
      SelectCartIds(window, minPrice, maxPrice, minQuantity, maxQuantity)
    }

    /** Omitted bounds impose no constraint: with no bound at all, the ids on a page of
        `get_carts` are its whole id window. */
    lemma UnboundedCartPage(offset: nat, limit: int)
      requires limit > 0
      ensures PageCartIds(offset, limit, None, None, None, None) == Window(|carts|, offset, limit)
    {
      var page := PageCartIds(offset, limit, None, None, None, None);
      var window := Window(|carts|, offset, limit);
      forall x ensures x in page <==> x in window {
        if 0 <= x < |carts| {
          assert CartMatches(carts[x], None, None, None, None);
        }
      }
      AscendingSameMembers(page, window);
    }

    /** The successful path of `get_carts`: the id window `[offset, min(offset + limit, len))`,
        with the carts whose price or piece count falls outside a supplied bound dropped. */
    function PageCarts(offset: nat, limit: int, minPrice: Option<real>, maxPrice: Option<real>,
                       minQuantity: Option<real>, maxQuantity: Option<real>): (r: seq<Cart>)
      requires CartsValid() && limit > 0
      reads this, cartIds, carts
      ensures offset >= |carts| ==> r == []
      ensures |r| <= limit
      ensures forall i :: 0 <= i < |r| ==>
                offset <= r[i].id < offset + limit && 0 <= r[i].id < |carts|
                && carts[r[i].id] == r[i]
                && CartMatches(r[i], minPrice, maxPrice, minQuantity, maxQuantity)
      ensures forall id ::
                (offset <= id < offset + limit && 0 <= id < |carts|
                 && CartMatches(carts[id], minPrice, maxPrice, minQuantity, maxQuantity))
                ==> carts[id] in r
      ensures forall i, j :: 0 <= i < j < |r| ==> r[i].id < r[j].id
    {
      var ids := PageCartIds(offset, limit, minPrice, maxPrice, minQuantity, maxQuantity);
      assert forall i :: 0 <= i < |ids| ==> ids[i] in ids;
      CartsAt(ids)
    }

    /** `get_carts`: a negative offset, a non-positive limit or any negative bound is refused;
        otherwise the page described by `PageCarts`. */
    function GetCarts(offset: int, limit: int, minPrice: Option<real>, maxPrice: Option<real>,
                      minQuantity: Option<real>, maxQuantity: Option<real>): (r: Result<seq<Cart>>)
      requires CartsValid()
      reads this, cartIds, carts
      ensures r.Failure? <==> offset < 0 || limit <= 0 || Negative(minPrice) || Negative(maxPrice)
                              || Negative(minQuantity) || Negative(maxQuantity)
      ensures r.Failure? ==> r.error.InvalidArgument?
      ensures r.Success? ==> offset >= 0 && limit > 0
                             && r.value == PageCarts(offset, limit, minPrice, maxPrice,
                                                     minQuantity, maxQuantity)
    {
      var bounds := [minPrice, maxPrice, minQuantity, maxQuantity];
      assert bounds[0] == minPrice && bounds[1] == maxPrice;
      assert bounds[2] == minQuantity && bounds[3] == maxQuantity;
      match ValidateListing(offset, limit, bounds)
      case Some(e) => Failure(InvalidArgument(e))
      case None => Success(PageCarts(offset, limit, minPrice, maxPrice, minQuantity, maxQuantity))
    }

    /** `add_item_to_cart`: both ids must be stored; then the item's line gains a piece or
        a snapshot line is appended, and the item's current price is added to the cart's
        price. Deleted items are accepted. */
    method AddItemToCart(cartId: int, itemId: int) returns (r: Result<Cart>)
      requires Valid()
      modifies this, if 0 <= cartId < |carts| then {carts[cartId]} else {}
      ensures Valid()
      ensures items == old(items) && carts == old(carts)
      ensures r.Failure? <==> !(0 <= cartId < |carts|) || !(0 <= itemId < |items|)
      ensures r.Failure? ==> r.error == InvalidArgument(UnknownCartOrItem) && cartAdds == old(cartAdds)
      ensures r.Failure? && 0 <= cartId < |carts| ==> unchanged(carts[cartId])
      ensures r.Success? ==>
                && r.value == carts[cartId]
                && r.value.items == AddLine(old(carts[cartId].items), itemId, items[itemId].name)
                && r.value.price == old(carts[cartId].price) + items[itemId].price
                && cartAdds == old(cartAdds)[cartId := old(cartAdds[cartId]) + [items[itemId].price]]
    {
      var foundCart := GetCartFromId(cartId);
      var foundItem := GetItemFromId(itemId);
      if foundCart.Failure? || foundItem.Failure? {
        return Failure(InvalidArgument(UnknownCartOrItem));
      }
      var cart := foundCart.value;
      var added := foundItem.value;
      ghost var lines := cart.items;
      ghost var adds := cartAdds[cartId];
      AddKeepsAccounted(lines, cart.price, adds, itemId, added.name, added.price, |items|);

      AddPiece(cart, added);
      cartAdds := cartAdds[cartId := adds + [added.price]];
      assert CartAccounted(cart, cartAdds[cartId], |items|);
      forall k | 0 <= k < |carts| ensures CartAccounted(carts[k], cartAdds[k], |items|) {
        if k != cartId {
          assert carts[k].id == k;
          assert old(CartAccounted(carts[k], cartAdds[k], |items|));
        }
      }
      return Success(cart);
    }

    /** `update_item`: refused for an unknown id (NotFound) or a deleted item (InvalidState);
        otherwise both name and price are replaced. Nothing else changes, carts included. */
    method UpdateItem(itemId: int, request: ItemRequest) returns (r: Result<Item>)
      requires Valid()
      modifies if 0 <= itemId < |items| then {items[itemId]} else {}
      ensures Valid()
      ensures !(0 <= itemId < |items|) ==> r == Failure(NotFound)
      ensures 0 <= itemId < |items| && old(items[itemId].deleted) ==>
                r == Failure(InvalidState) && unchanged(items[itemId])
      ensures 0 <= itemId < |items| && !old(items[itemId].deleted) ==>
                && r == Success(items[itemId])
                && items[itemId].name == request.name
                && items[itemId].price == request.price
                && !items[itemId].deleted
    {
      var found := GetItemFromId(itemId);
      if found.Failure? {
        return Failure(found.error);
      }
      var item := found.value;
      if item.deleted {
        return Failure(InvalidState);
      }
      item.Update(request);
      return Success(item);
    }

    /** `patch_item`: same refusals as `update_item`; otherwise only the supplied fields
        are written. */
    method PatchItem(itemId: int, request: ItemPatchRequest) returns (r: Result<Item>)
      requires Valid()
      modifies if 0 <= itemId < |items| then {items[itemId]} else {}
      ensures Valid()
      ensures !(0 <= itemId < |items|) ==> r == Failure(NotFound)
      ensures 0 <= itemId < |items| && old(items[itemId].deleted) ==>
                r == Failure(InvalidState) && unchanged(items[itemId])
      ensures 0 <= itemId < |items| && !old(items[itemId].deleted) ==>
                && r == Success(items[itemId])
                && items[itemId].name == (if request.name.Some? then request.name.value
                                         else old(items[itemId].name))
                && items[itemId].price == (if request.price.Some? then request.price.value
                                          else old(items[itemId].price))
                && !items[itemId].deleted
    {
      var found := GetItemFromId(itemId);
      if found.Failure? {
        return Failure(found.error);
      }
      var item := found.value;
      if item.deleted {
        return Failure(InvalidState);
      }
      if request.name.Some? {
        item.UpdateName(request.name.value);
      }
      if request.price.Some? {
        item.UpdatePrice(request.price.value);
      }
      return Success(item);
    }

    /** `delete_item`: NotFound for an unknown id; otherwise the item is marked deleted,
        whatever its previous state, and stays stored. */
    method DeleteItem(itemId: int) returns (r: Result<()>)
      requires Valid()
      modifies if 0 <= itemId < |items| then {items[itemId]} else {}
      ensures Valid()
      ensures !(0 <= itemId < |items|) ==> r == Failure(NotFound)
      ensures 0 <= itemId < |items| ==>
                && r == Success(())
                && items[itemId].deleted
                && items[itemId].name == old(items[itemId].name)
                && items[itemId].price == old(items[itemId].price)
    {
      var found := GetItemFromId(itemId);
      if found.Failure? {
        return Failure(found.error);
      }
      found.value.deleted := true;
      return Success(());
    }
  }
}
