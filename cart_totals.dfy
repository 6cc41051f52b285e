/**
 * The two folds over the cart that app/cart/page.tsx, app/cart/CartNav.tsx and
 * app/components/CheckoutModal.tsx each compute with `items.reduce(..., 0)`:
 * the number of units and the price in cents. They are written as left folds,
 * the order in which `reduce` visits the items.
 */
module CartTotals {
  import opened CartReducer

  /** One line's subtotal, `item.price * item.quantity`. */
  function LineTotal(item: CartItem): int
  {
    item.price * item.quantity
  }

  /** `items.reduce((sum, item) => sum + item.quantity, 0)`. */
  function TotalItems(items: seq<CartItem>): int
  {
    if items == [] then 0 else TotalItems(items[..|items| - 1]) + items[|items| - 1].quantity
  }

  /** `items.reduce((sum, item) => sum + item.price * item.quantity, 0)`. */
  function TotalPrice(items: seq<CartItem>): int
  {
    if items == [] then 0 else TotalPrice(items[..|items| - 1]) + LineTotal(items[|items| - 1])
  }

  lemma {:induction false} TotalsAppend(a: seq<CartItem>, b: seq<CartItem>)
    ensures TotalItems(a + b) == TotalItems(a) + TotalItems(b)
    ensures TotalPrice(a + b) == TotalPrice(a) + TotalPrice(b)
  {
    if b == [] {
      assert a + b == a;
    } else {
      var b' := b[..|b| - 1];
      assert (a + b)[..|a + b| - 1] == a + b';
      assert (a + b)[|a + b| - 1] == b[|b| - 1];
      TotalsAppend(a, b');
    }
  }

  lemma TotalsOfOne(x: CartItem)
    ensures TotalItems([x]) == x.quantity && TotalPrice([x]) == LineTotal(x)
  {
    assert [x][..0] == [];
  }

  /** Both totals of an empty cart are 0. */
  lemma TotalsEmpty()
    ensures TotalItems([]) == 0 && TotalPrice([]) == 0
  {
  }

  /** With every quantity at least 1, the unit count is at least the number of lines, so it is 0 only for an empty cart. */
  lemma {:induction false} TotalItemsBound(items: seq<CartItem>)
    requires forall i :: 0 <= i < |items| ==> items[i].quantity >= 1
    ensures TotalItems(items) >= |items|
    ensures TotalItems(items) == 0 <==> items == []
  {
    if items != [] {
      TotalItemsBound(items[..|items| - 1]);
    }
  }

  /** With non-negative prices and positive quantities the price total is non-negative. */
  lemma {:induction false} TotalPriceNonNegative(items: seq<CartItem>)
    requires forall i :: 0 <= i < |items| ==> items[i].price >= 0 && items[i].quantity >= 1
    ensures TotalPrice(items) >= 0
  {
    if items != [] {
      TotalPriceNonNegative(items[..|items| - 1]);
    }
  }

  /** One more (or one fewer) unit on a line adds (or takes away) one unit price. */
  lemma LineStep(x: CartItem, d: int)
    requires d == 1 || d == -1
    ensures LineTotal(x.(quantity := x.quantity + d)) == LineTotal(x) + d * x.price
  {
    assert (x.quantity + d) * x.price == x.quantity * x.price + d * x.price;
  }

  /** Replacing one line by another changes the totals by the difference of the two lines. */
  lemma ReplaceLine(front: seq<CartItem>, x: CartItem, y: CartItem, back: seq<CartItem>)
    ensures TotalItems(front + [y] + back) == TotalItems(front + [x] + back) - x.quantity + y.quantity
    ensures TotalPrice(front + [y] + back) == TotalPrice(front + [x] + back) - LineTotal(x) + LineTotal(y)
  {
    TotalsAppend(front + [x], back);
    TotalsAppend(front, [x]);
    TotalsAppend(front + [y], back);
    TotalsAppend(front, [y]);
    TotalsOfOne(x);
    TotalsOfOne(y);
  }

  /** One unit more (or fewer) on a line moves the unit count by one and the price total by one unit price. */
  lemma ShiftLine(front: seq<CartItem>, x: CartItem, d: int, back: seq<CartItem>)
    requires d == 1 || d == -1
    ensures var y := x.(quantity := x.quantity + d);
      && TotalItems(front + [y] + back) == TotalItems(front + [x] + back) + d
      && TotalPrice(front + [y] + back) == TotalPrice(front + [x] + back) + d * x.price
  {
    ReplaceLine(front, x, x.(quantity := x.quantity + d), back);
    LineStep(x, d);
  }

  /** Dropping a line takes away its units and its subtotal. */
  lemma DropLine(front: seq<CartItem>, x: CartItem, back: seq<CartItem>)
    ensures TotalItems(front + back) == TotalItems(front + [x] + back) - x.quantity
    ensures TotalPrice(front + back) == TotalPrice(front + [x] + back) - LineTotal(x)
  {
    TotalsAppend(front, back);
    TotalsAppend(front, [x]);
    TotalsAppend(front + [x], back);
    TotalsOfOne(x);
  }

  // ---------------------------------------------------------------------
  // How each action moves the totals (the totals are never stale)

  /** Adding a new product adds one unit and its price. */
  lemma AddNewTotals(state: CartState, p: Product)
    requires Complete(p) && !HasId(state.items, p.id.value)
    ensures TotalItems(Reduce(state, AddItem(p)).items) == TotalItems(state.items) + 1
    ensures TotalPrice(Reduce(state, AddItem(p)).items) == TotalPrice(state.items) + p.price.value
  {
    TotalsAppend(state.items, [NewEntry(p)]);
    TotalsOfOne(NewEntry(p));
  }

  /** "+" on entry `k` adds one unit and that entry's unit price. */
  lemma IncreaseTotals(state: CartState, k: int)
    requires UniqueIds(state.items) && 0 <= k < |state.items|
    ensures var r := Reduce(state, IncreaseQuantity(state.items[k].id));
      && TotalItems(r.items) == TotalItems(state.items) + 1
      && TotalPrice(r.items) == TotalPrice(state.items) + state.items[k].price
  {
    var after := Reduce(state, IncreaseQuantity(state.items[k].id)).items;
    IncreasedAt(state, k);
    RaisedAt(state.items, k, after);
  }

  lemma IncreasedAt(state: CartState, k: int)
    requires UniqueIds(state.items) && 0 <= k < |state.items|
    ensures Reduce(state, IncreaseQuantity(state.items[k].id)).items
         == state.items[..k] + [state.items[k].(quantity := state.items[k].quantity + 1)] + state.items[k + 1..]
  {
    AdjustAt(state.items, k, 1);
  }

  lemma RaisedAt(items: seq<CartItem>, k: int, after: seq<CartItem>)
    requires 0 <= k < |items|
    requires after == items[..k] + [items[k].(quantity := items[k].quantity + 1)] + items[k + 1..]
    ensures TotalItems(after) == TotalItems(items) + 1
    ensures TotalPrice(after) == TotalPrice(items) + items[k].price
  {
    SplitAt(items, k);
    RaisedBetween(items, items[..k], items[k], items[k + 1..], after);
  }

  lemma RaisedBetween(items: seq<CartItem>, front: seq<CartItem>, x: CartItem, back: seq<CartItem>, after: seq<CartItem>)
    requires items == front + [x] + back && after == front + [x.(quantity := x.quantity + 1)] + back
    ensures TotalItems(after) == TotalItems(items) + 1
    ensures TotalPrice(after) == TotalPrice(items) + x.price
  {
    ShiftLine(front, x, 1, back);
  }

  /** A list is the lines before `k`, line `k`, and the lines after it. */
  lemma SplitAt(items: seq<CartItem>, k: int)
    requires 0 <= k < |items|
    ensures items == items[..k] + [items[k]] + items[k + 1..]
  {
  }

  /** In a well-formed cart every line is in stock, so the stock filter keeps the lines before and after `k`. */
  lemma InStockAround(items: seq<CartItem>, k: int)
    requires WellFormed(items) && 0 <= k < |items|
    ensures Filter(items[..k], InStock) == items[..k]
    ensures Filter(items[k + 1..], InStock) == items[k + 1..]
  {
    var front, back := items[..k], items[k + 1..];
    forall i | 0 <= i < |front| ensures InStock(front[i]) {
      assert front[i] == items[i];
    }
    forall i | 0 <= i < |back| ensures InStock(back[i]) {
      assert back[i] == items[k + 1 + i];
    }
    FilterKeepsAll(front, InStock);
    FilterKeepsAll(back, InStock);
  }

  /** Filtering around one entry, where the filter keeps both sides whole, leaves the sides and that entry's fate. */
  lemma FilterAround(front: seq<CartItem>, y: CartItem, back: seq<CartItem>)
    requires Filter(front, InStock) == front && Filter(back, InStock) == back
    ensures Filter(front + [y] + back, InStock) == if InStock(y) then front + [y] + back else front + back
  {
    FilterSplice(front + [y] + back, front + [y], front, y, back);
  }

  lemma FilterSplice(whole: seq<CartItem>, left: seq<CartItem>, front: seq<CartItem>, y: CartItem, back: seq<CartItem>)
    requires left == front + [y] && whole == left + back
    requires Filter(front, InStock) == front && Filter(back, InStock) == back
    ensures Filter(whole, InStock) == if InStock(y) then left + back else front + back
  {
    FilterAppend(left, back, InStock);
    FilterAppend(front, [y], InStock);
    FilterOne(y);
    if !InStock(y) {
      assert front + [] == front;
    }
  }

  lemma FilterOne(y: CartItem)
    ensures Filter([y], InStock) == if InStock(y) then [y] else []
  {
    assert [y][1..] == [];
  }

  /** In a well-formed cart "-" on entry `k` lowers that entry only, or drops it when it was at 1. */
  lemma DecreaseAt(items: seq<CartItem>, k: int)
    requires WellFormed(items) && 0 <= k < |items|
    ensures var y := items[k].(quantity := items[k].quantity - 1);
      Positive(Adjust(items, items[k].id, -1))
        == if items[k].quantity > 1 then items[..k] + [y] + items[k + 1..] else items[..k] + items[k + 1..]
  {
    AdjustAt(items, k, -1);
    InStockAround(items, k);
    FilterAround(items[..k], items[k].(quantity := items[k].quantity - 1), items[k + 1..]);
  }

  /** One unit fewer on a line, dropping the line when it reaches 0, takes away one unit and one unit price. */
  lemma LowerLine(front: seq<CartItem>, x: CartItem, back: seq<CartItem>)
    requires x.quantity >= 1
    ensures var y := x.(quantity := x.quantity - 1);
      var after := if x.quantity > 1 then front + [y] + back else front + back;
      && TotalItems(after) == TotalItems(front + [x] + back) - 1
      && TotalPrice(after) == TotalPrice(front + [x] + back) - x.price
  {
    var y := x.(quantity := x.quantity - 1);
    ShiftLine(front, x, -1, back);
    if x.quantity == 1 {
      DropLine(front, y, back);
      assert LineTotal(y) == 0;
    }
  }

  /** In a well-formed cart "-" on entry `k` takes away one unit and its price, whether the entry stays or goes. */
  lemma DecreaseTotals(state: CartState, k: int)
    requires WellFormed(state.items) && 0 <= k < |state.items|
    ensures var r := Reduce(state, DecreaseQuantity(state.items[k].id));
      && TotalItems(r.items) == TotalItems(state.items) - 1
      && TotalPrice(r.items) == TotalPrice(state.items) - state.items[k].price
  {
    var after := Reduce(state, DecreaseQuantity(state.items[k].id)).items;
    DecreaseAt(state.items, k);
    assert InStock(state.items[k]);
    LoweredAt(state.items, k, after);
  }

  lemma LoweredAt(items: seq<CartItem>, k: int, after: seq<CartItem>)
    requires 0 <= k < |items| && items[k].quantity >= 1
    requires after == if items[k].quantity > 1 then items[..k] + [items[k].(quantity := items[k].quantity - 1)] + items[k + 1..]
                      else items[..k] + items[k + 1..]
    ensures TotalItems(after) == TotalItems(items) - 1
    ensures TotalPrice(after) == TotalPrice(items) - items[k].price
  {
    SplitAt(items, k);
    LoweredBetween(items, items[..k], items[k], items[k + 1..], after);
  }

  lemma LoweredBetween(items: seq<CartItem>, front: seq<CartItem>, x: CartItem, back: seq<CartItem>, after: seq<CartItem>)
    requires items == front + [x] + back && x.quantity >= 1
    requires after == if x.quantity > 1 then front + [x.(quantity := x.quantity - 1)] + back else front + back
    ensures TotalItems(after) == TotalItems(items) - 1
    ensures TotalPrice(after) == TotalPrice(items) - x.price
  {
    LowerLine(front, x, back);
  }

  /** Removing entry `k` takes away exactly its line. */
  lemma RemoveTotals(state: CartState, k: int)
    requires UniqueIds(state.items) && 0 <= k < |state.items|
    ensures var r := Reduce(state, RemoveItem(state.items[k].id));
      && TotalItems(r.items) == TotalItems(state.items) - state.items[k].quantity
      && TotalPrice(r.items) == TotalPrice(state.items) - LineTotal(state.items[k])
  {
    SplitAt(state.items, k);
    WithoutIdAt(state.items, k);
    DroppedBetween(state.items, state.items[..k], state.items[k], state.items[k + 1..], WithoutId(state.items, state.items[k].id));
  }

  lemma DroppedBetween(items: seq<CartItem>, front: seq<CartItem>, x: CartItem, back: seq<CartItem>, after: seq<CartItem>)
    requires items == front + [x] + back && after == front + back
    ensures TotalItems(after) == TotalItems(items) - x.quantity
    ensures TotalPrice(after) == TotalPrice(items) - LineTotal(x)
  {
    DropLine(front, x, back);
  }

  /** CLEAR_CART brings both totals to 0; messages and rejected adds do not move them. */
  lemma UnchangedTotals(state: CartState, p: Product)
    ensures TotalPrice(Reduce(state, ClearCart).items) == 0
    ensures TotalItems(Reduce(state, ClearCart).items) == 0
    ensures Reduce(state, ClearMessage).items == state.items
    ensures (!Complete(p) || HasId(state.items, p.id.value)) ==> Reduce(state, AddItem(p)).items == state.items
    ensures (!Complete(p) || HasId(state.items, p.id.value)) ==>
      TotalPrice(Reduce(state, AddItem(p)).items) == TotalPrice(state.items)
  {
  }
}
