# Shop store model

A Dafny model of the in-memory store layer of a small shop backend
(`lecture_2/hw/shop_api/store`). The store keeps items and carts in two
dictionaries keyed by ids drawn from two independent counting generators. It offers:

- creation and lookup by id;
- argument validation for listings;
- windowed-then-filtered listing of items and of carts;
- adding an item to a cart, snapshot-priced;
- the item lifecycle: update, patch and soft delete, where update and patch are refused on deleted items.

Layout, one module per file:

- `contracts.dfy` (`Contracts`): the request shapes `ItemRequest` and `ItemPatchRequest`, plus `Option`.
- `outcomes.dfy` (`Outcomes`): the error taxonomy and `Result`.
- `ids.dfy` (`Ids`): the id generator as a counter object.
- `models.dfy` (`Models`): the classes `Item` and `Cart`, whose fields the code updates in place, and the line value `CartItem`.
- `listing.dfy` (`Listing`): `raise_errors`, the id window, and facts about ascending id lists.
- `cart_lines.dfy` (`CartLines`): the find-or-append step of adding to a cart, as functions on a list of lines, with its lemmas.
- `queries.dfy` (`Queries`): the `Store` class. It replaces the module-level dictionaries and generators, and implements every operation of `queries.py`.
- `scenarios.dfy` (`Scenarios`): whole-store scenarios, proved from an empty store.

Each dictionary is a sequence indexed by id. The store invariant `Store.Valid` says:

- every dictionary's keys are exactly the ids its generator has issued (`0 .. nextId-1`), and each object's `id` is its key;
- every cart has one line per item id, and every line refers to a stored item;
- every cart's price is the sum of the item prices observed at each of its adds, and its piece count equals the number of those adds. The adds are recorded in the ghost field `cartAdds`.

Failures are values: `NotFound` stands for the code's `KeyError` on a lookup. `InvalidArgument(reason)` stands for the `ValueError` of listing validation and of `add_item_to_cart`. `InvalidState` stands for the `ValueError` raised for a deleted item.

## Model

| member | source | states |
|---|---|---|
| Ids.IdGenerator.constructor | lecture_2/hw/shop_api/store/queries.py:18-19 | a new sequence will yield 0 first |
| Ids.IdGenerator.Next | lecture_2/hw/shop_api/store/queries.py:20-22 | yields the current value and advances by exactly one |
| Models.Item.FromRequest | lecture_2/hw/shop_api/store/models.py:17-22 | the new item has the given id, the request's name and price, and is not deleted |
| Models.Item.UpdateName | lecture_2/hw/shop_api/store/models.py:24-25 | sets the name; its frame is the name field alone |
| Models.Item.UpdatePrice | lecture_2/hw/shop_api/store/models.py:27-28 | sets the price; its frame is the price field alone |
| Models.Item.Update | lecture_2/hw/shop_api/store/models.py:30-32 | name and price become the request's; id and deleted flag lie outside its frame |
| Models.CartItem.FromItem | lecture_2/hw/shop_api/store/models.py:41-48 | the line copies the item's id and current name, holds one piece and is available |
| Models.Cart.FromId | lecture_2/hw/shop_api/store/models.py:56-58 | the new cart has the given id, no lines and price 0 |
| Listing.AnyNegative | lecture_2/hw/shop_api/store/queries.py:58 | true exactly when some supplied bound is below zero; absent bounds never count |
| Listing.ValidateListing | lecture_2/hw/shop_api/store/queries.py:50-59 | accepts exactly when offset >= 0, limit > 0 and no supplied bound is negative; when it refuses, the reason is the first failed check in the code's order (offset, then limit, then bounds) |
| Listing.Window | lecture_2/hw/shop_api/store/queries.py:120-123 | the visited ids are `offset, offset+1, ...`, exactly those below both `offset + limit` and the store size, at most `limit` of them, and none when `offset >= size` |
| Listing.AscendingSameMembers | lecture_2/hw/shop_api/store/queries.py:125-130 | two ascending id lists holding the same ids are equal; this makes a page a function of which ids pass the filter |
| CartLines.FindLine | lecture_2/hw/shop_api/store/queries.py:97-98 | finds the first available line for the item exactly when one exists; no earlier line matches |
| CartLines.LocateLine | lecture_2/hw/shop_api/store/queries.py:97-101 | the scan loop stops at the index `FindLine` names, or at the end exactly when no line matches |
| CartLines.AddLineExisting | lecture_2/hw/shop_api/store/queries.py:97-101 | with a line for the item present, that line gains one piece; no line is added and every other line is unchanged |
| CartLines.AddLineFresh | lecture_2/hw/shop_api/store/queries.py:103-104 | with no line for the item, exactly one one-piece snapshot line is appended after the others |
| CartLines.AddLineWellFormed | lecture_2/hw/shop_api/store/queries.py:97-105 | adding keeps one line per item id, raises the piece count by one, leaves a line for the item and introduces no other item id |
| CartLines.SumAppend | lecture_2/hw/shop_api/store/queries.py:100 | charging one more price adds exactly that price to the running total |
| CartLines.TotalQuantityAppend | lecture_2/hw/shop_api/store/queries.py:83 | appending a line adds its quantity to the cart's piece count |
| CartLines.TotalQuantityUpdate | lecture_2/hw/shop_api/store/queries.py:83 | replacing one line changes the piece count by the difference of the two quantities |
| Queries.AddKeepsAccounted | lecture_2/hw/shop_api/store/queries.py:97-105 | one add keeps a cart's lines well formed and referring to stored items; its price stays the sum of the prices at each add, and its piece count the number of adds |
| Queries.AddPiece | lecture_2/hw/shop_api/store/queries.py:97-105 | the cart's lines become `AddLine` of the old lines, and the price grows by the item's current price, once |
| Queries.Store.constructor | lecture_2/hw/shop_api/store/queries.py:24-25 | an empty store whose two sequences both start at 0 satisfies the invariant |
| Queries.Store.GenerateNewCart | lecture_2/hw/shop_api/store/queries.py:27-33 | the new cart takes the next cart id, which equals the number of stored carts, so ids are never reused; the cart is stored under that id, empty and at price 0; items and the item sequence are untouched; the add history gains an empty entry for the new cart and is otherwise unchanged |
| Queries.Store.GenerateNewItem | lecture_2/hw/shop_api/store/queries.py:35-42 | the new item takes the next item id, equal to the number of stored items; it is stored under that id with the request's fields and is not deleted; carts are untouched; the add history of every cart is unchanged |
| Queries.Store.GetCartFromId | lecture_2/hw/shop_api/store/queries.py:44-45 | succeeds exactly for an issued cart id, with the cart of that id; otherwise NotFound |
| Queries.Store.GetItemFromId | lecture_2/hw/shop_api/store/queries.py:47-48 | succeeds exactly for an issued item id, deleted items included; otherwise NotFound |
| Queries.Store.SelectItemIds | lecture_2/hw/shop_api/store/queries.py:125-130 | keeps exactly the listed ids whose item passes the price bounds and the deleted filter, and keeps an ascending list ascending |
| Queries.Store.SelectCartIds | lecture_2/hw/shop_api/store/queries.py:78-86 | keeps exactly the listed ids whose cart passes the price and piece-count bounds, and keeps an ascending list ascending |
| Queries.Store.ItemsAt | lecture_2/hw/shop_api/store/queries.py:126 | the items stored under the given ids, position by position |
| Queries.Store.CartsAt | lecture_2/hw/shop_api/store/queries.py:79 | the carts stored under the given ids, position by position |
| Queries.Store.PageItemIds | lecture_2/hw/shop_api/store/queries.py:120-130 | an id is on the page exactly when it is in the window and its item matches; the ids ascend; at most `limit`; none for `offset >= len` |
| Queries.Store.PageCartIds | lecture_2/hw/shop_api/store/queries.py:73-86 | an id is on the page exactly when it is in the window and its cart matches; the ids ascend; at most `limit`; none for `offset >= len` |
| Queries.Store.UnboundedItemPage | lecture_2/hw/shop_api/store/queries.py:125-130 | with no price bound and deleted items shown, the page is the whole window: absent bounds impose nothing |
| Queries.Store.UnboundedCartPage | lecture_2/hw/shop_api/store/queries.py:78-86 | with no bound at all, the page is the whole window |
| Queries.Store.PageItems | lecture_2/hw/shop_api/store/queries.py:120-132 | every returned item is the stored item of its id, in the window and passing the filter; every window item that passes is returned; ids strictly ascend; at most `limit`; `[]` for `offset >= len` |
| Queries.Store.PageCarts | lecture_2/hw/shop_api/store/queries.py:73-88 | the same window-then-filter result for carts, with the price bounds on the running price and the quantity bounds on the piece count (0 for an empty cart) |
| Queries.Store.GetItems | lecture_2/hw/shop_api/store/queries.py:109-132 | fails, always with InvalidArgument, exactly when offset < 0, limit <= 0 or a supplied price bound is negative; otherwise returns the page `PageItems`; deleted items are left out unless asked for, as in the code's default |
| Queries.Store.GetCarts | lecture_2/hw/shop_api/store/queries.py:61-88 | fails, always with InvalidArgument, exactly when offset < 0, limit <= 0 or any supplied bound is negative; otherwise returns the page `PageCarts` |
| Queries.Store.AddItemToCart | lecture_2/hw/shop_api/store/queries.py:90-107 | fails with InvalidArgument exactly when the cart or the item is unknown, and then nothing changes; otherwise the cart's lines become `AddLine` of the old ones, its price grows by the item's current price, the add is recorded, and the invariant holds; deleted items are accepted |
| Queries.Store.UpdateItem | lecture_2/hw/shop_api/store/queries.py:134-141 | NotFound for an unknown id; InvalidState, with the item unchanged, for a deleted one; otherwise both name and price are replaced and the item stays active; nothing else can change |
| Queries.Store.PatchItem | lecture_2/hw/shop_api/store/queries.py:143-154 | the same refusals; otherwise each supplied field is written and each absent one keeps its value |
| Queries.Store.DeleteItem | lecture_2/hw/shop_api/store/queries.py:156-158 | NotFound for an unknown id; otherwise the item is marked deleted whatever its prior state, keeps its name and price, and stays stored |
| Scenarios.RepeatedAdd | lecture_2/hw/shop_api/store/queries.py:90-107 | two adds of one item give one line of two pieces and a cart price of twice the item's price |
| Scenarios.RepriceAfterAdd | lecture_2/hw/shop_api/store/queries.py:90-141 | after an add, replacing the item's price takes effect on the item and leaves the cart's lines and price as they were |
| Scenarios.DeletedItemHidden | lecture_2/hw/shop_api/store/queries.py:120-132 | a deleted item is absent from a default listing |
| Scenarios.DeletedItemShown | lecture_2/hw/shop_api/store/queries.py:120-132 | a listing that asks for deleted items returns exactly the one deleted item |
| Scenarios.DeletedItemAddable | lecture_2/hw/shop_api/store/queries.py:90-107 | a deleted item can still be added to a cart, as a fresh one-piece line |

## Left out

- HTTP routing (`api/item/routes.py`, `api/cart/routes.py`): status-code mapping and headers are transport concerns. The routes' translation of a deleted item into "not found" is part of this.
- `main_hw3.py` and `store/__init__.py`: application wiring, metrics and re-exports.
- `store/db.py` is not part of this model. Its two dictionaries are modelled as the `items` and `carts` sequences of `Store`, indexed by id. Sequences suffice because the keys are always exactly the issued ids.
- Request validation by the request library (type coercion, rejecting extra fields): only the request shapes are kept.
- Floating point: prices and all bounds are exact `real`s. Rounding in `cart.price += price` is not modelled.
- Generator semantics: `int_id_generator` is reduced to a counter object whose `Next` yields the current value and then increments it.
- Exception classes: `KeyError`/`ValueError` become the `NotFound`, `InvalidArgument` and `InvalidState` values of `Outcomes.Error`, as described above. The message texts are dropped.
- Negative prices: the code never checks a request price (`ItemRequest.price` is any float), so the model accepts any price.
- Line matching: the loop increments an existing line only when it is `available` (queries.py:98). The model follows this (`CartLines.Matches`), and every stored line is available (`CartLines.WellFormed`).
- The add-to-cart loop structure: the code's loop returns from inside the loop after incrementing the line and charging the price. The model runs the same scan as a separate loop (`CartLines.LocateLine`) and then applies the same single update. The observable effect is the same.
- CartItem: a line is a value; the in-place `quantity += 1` (queries.py:99) becomes a replacement of that element of the cart's list, which is equivalent because no line object is shared.
- Concurrency: the code has none, and none is modelled.
