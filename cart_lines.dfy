/** The line arithmetic of `add_item_to_cart` as functions on a cart's list of lines:
    find the line for an item, bump or append, and the quantity total used by the
    cart listing's quantity bounds. */
module CartLines {
  import opened Contracts
  import opened Models

  /** The loop's test: a line for item `id` that is available. */
  predicate Matches(line: CartItem, id: int)
  {
    line.id == id && line.available
  }

  /** The index the search loop stops at: the first matching line, if any. */
  function FindLine(lines: seq<CartItem>, id: int): (r: Option<nat>)
    ensures r.Some? ==> r.value < |lines| && Matches(lines[r.value], id)
    ensures r.Some? ==> forall j :: 0 <= j < r.value ==> !Matches(lines[j], id)
    ensures r.None? <==> forall j :: 0 <= j < |lines| ==> !Matches(lines[j], id)
  {
    if lines == [] then None
    else if Matches(lines[0], id) then Some(0)
    else match FindLine(lines[1..], id)
      case None => None
      case Some(k) => Some(k + 1)
  }

  /** The scan in `add_item_to_cart`: walks the lines front to back and stops at the
      first available line for item `id`, or runs off the end. */
  method LocateLine(lines: seq<CartItem>, id: int) returns (i: nat)
    ensures i <= |lines|
    ensures i < |lines| <==> FindLine(lines, id).Some?
    ensures i < |lines| ==> FindLine(lines, id) == Some(i)
  {
    i := 0;
    while i < |lines| && !Matches(lines[i], id)
      invariant 0 <= i <= |lines|
      invariant forall j :: 0 <= j < i ==> !Matches(lines[j], id)
    {
      i := i + 1;
    }
  }

  /** The new list of lines after adding item `id` named `name`: the matching line
      gains one piece, or a fresh one-piece line is appended. */
  function AddLine(lines: seq<CartItem>, id: int, name: string): seq<CartItem>
  {
    match FindLine(lines, id)
    case Some(i) => lines[i := lines[i].(quantity := lines[i].quantity + 1)]
    case None => lines + [CartItem(id, name, 1, true)]
  }

  /** The number of pieces in a cart: its line quantities added up, 0 for no lines. */
  function TotalQuantity(lines: seq<CartItem>): int
  {
    if lines == [] then 0 else lines[0].quantity + TotalQuantity(lines[1..])
  }

  /** What every stored cart satisfies: one line per item id, every line available
      and holding at least one piece. */
  predicate WellFormed(lines: seq<CartItem>)
  {
    && (forall i, j :: 0 <= i < j < |lines| ==> lines[i].id != lines[j].id)
    && (forall i :: 0 <= i < |lines| ==> lines[i].available && lines[i].quantity >= 1)
  }

  /** Running total of the prices added to a cart, oldest first. */
  function Sum(prices: seq<real>): real
  {
    if prices == [] then 0.0 else Sum(prices[..|prices| - 1]) + prices[|prices| - 1]
  }

  lemma SumAppend(prices: seq<real>, p: real)
    ensures Sum(prices + [p]) == Sum(prices) + p
  {
  }

  lemma {:induction false} TotalQuantityAppend(lines: seq<CartItem>, line: CartItem)
    ensures TotalQuantity(lines + [line]) == TotalQuantity(lines) + line.quantity
  {
    if lines != [] {
      assert (lines + [line])[1..] == lines[1..] + [line];
      TotalQuantityAppend(lines[1..], line);
    }
  }

  lemma {:induction false} TotalQuantityUpdate(lines: seq<CartItem>, i: nat, line: CartItem)
    requires i < |lines|
    ensures TotalQuantity(lines[i := line]) == TotalQuantity(lines) - lines[i].quantity + line.quantity
  {
    if i > 0 {
      assert lines[i := line][1..] == lines[1..][i - 1 := line];
      TotalQuantityUpdate(lines[1..], i - 1, line);
    }
  }

  /** With well-formed lines, a line for `id` at index `j` is the one incremented: the
      list keeps its length, line `j` gains one piece and every other line is untouched. */
  lemma AddLineExisting(lines: seq<CartItem>, id: int, name: string, j: nat)
    requires WellFormed(lines)
    requires j < |lines| && lines[j].id == id
    ensures |AddLine(lines, id, name)| == |lines|
    ensures AddLine(lines, id, name)[j] == lines[j].(quantity := lines[j].quantity + 1)
    ensures forall k :: 0 <= k < |lines| && k != j ==> AddLine(lines, id, name)[k] == lines[k]
  {
  }

  /** Without a line for `id`, a single snapshot line is appended after the others. */
  lemma AddLineFresh(lines: seq<CartItem>, id: int, name: string)
    requires forall k :: 0 <= k < |lines| ==> lines[k].id != id
    ensures AddLine(lines, id, name) == lines + [CartItem(id, name, 1, true)]
  {
  }

  /** Adding keeps the cart well formed, raises the piece count by exactly one, leaves a
      line for `id` and introduces no other item id. */
  lemma AddLineWellFormed(lines: seq<CartItem>, id: int, name: string)
    requires WellFormed(lines)
    ensures WellFormed(AddLine(lines, id, name))
    ensures TotalQuantity(AddLine(lines, id, name)) == TotalQuantity(lines) + 1
    ensures exists k :: 0 <= k < |AddLine(lines, id, name)| && AddLine(lines, id, name)[k].id == id
    ensures forall k :: 0 <= k < |AddLine(lines, id, name)| ==>
              AddLine(lines, id, name)[k].id == id || (k < |lines| && AddLine(lines, id, name)[k].id == lines[k].id)
  {
    var r := AddLine(lines, id, name);
    match FindLine(lines, id)
    case Some(i) =>
      TotalQuantityUpdate(lines, i, lines[i].(quantity := lines[i].quantity + 1));
      assert r[i].id == id;
    case None =>
      TotalQuantityAppend(lines, CartItem(id, name, 1, true));
      assert r[|lines|].id == id;
  }
}
