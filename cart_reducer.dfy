/**
 * The cart state machine: `cartReducer` of app/cart/CartContext.tsx, a total
 * function from a state and one of seven actions to a fresh state. Prices are
 * integer cents; quantities are unbounded integers because LOAD_CART accepts
 * whatever the stored blob held.
 */
module CartReducer {
  import opened Wrappers
  import opened Js

  datatype CartItem = CartItem(id: string, name: string, price: int, imageUrl: string, quantity: int)

  datatype CartState = CartState(items: seq<CartItem>, message: Option<string>)

  /** The payload of ADD_ITEM: a product without quantity, whose fields may be missing at run time. */
  datatype Product = Product(id: Option<string>, name: Option<string>, price: Option<int>, imageUrl: Option<string>)

  datatype CartAction =
    | AddItem(item: Product)
    | RemoveItem(id: string)
    | IncreaseQuantity(id: string)
    | DecreaseQuantity(id: string)
    | LoadCart(items: seq<CartItem>)
    | ClearMessage
    | ClearCart

  const EmptyCart := CartState([], None)
  const IncompleteMessage := "Unable to add product to cart. Product data is incomplete."
  const ClearedMessage := "Cart cleared successfully!"

  function AlreadyInCartMessage(name: string): string { name + " is already in your cart." }

  function AddedMessage(name: string): string { name + " added to cart!" }

  /** ADD_ITEM's guard: `id`, `name` and `imageUrl` truthy and `price` not `undefined` (0 is fine). */
  predicate Complete(p: Product)
  {
    Present(p.id) && Present(p.name) && p.price.Some? && Present(p.imageUrl)
  }

  predicate HasId(items: seq<CartItem>, id: string)
  {
    exists i :: 0 <= i < |items| && items[i].id == id
  }

  /** No two entries share an id. */
  predicate UniqueIds(items: seq<CartItem>)
  {
    forall i, j :: 0 <= i < j < |items| ==> items[i].id != items[j].id
  }

  /** The cart invariant: unique ids and every quantity at least 1, kept by every action but LOAD_CART. */
  predicate WellFormed(items: seq<CartItem>)
  {
    UniqueIds(items) && forall i :: 0 <= i < |items| ==> items[i].quantity >= 1
  }

  /** `items.filter(keep)`. */
  function Filter(items: seq<CartItem>, keep: CartItem -> bool): (r: seq<CartItem>)
    ensures |r| <= |items|
  {
    if items == [] then []
    else (if keep(items[0]) then [items[0]] else []) + Filter(items[1..], keep)
  }

  /** The filter keeps exactly the entries satisfying `keep`. */
  lemma {:induction false} FilterMembers(items: seq<CartItem>, keep: CartItem -> bool)
    ensures forall x :: x in Filter(items, keep) <==> x in items && keep(x)
  {
    if items != [] {
      FilterMembers(items[1..], keep);
      assert items == [items[0]] + items[1..];
    }
  }

  /** `items.map(i => i.id === id ? { ...i, quantity: i.quantity + delta } : i)`. */
  function Adjust(items: seq<CartItem>, id: string, delta: int): (r: seq<CartItem>)
    ensures |r| == |items|
  {
    if items == [] then []
    else [if items[0].id == id then items[0].(quantity := items[0].quantity + delta) else items[0]]
         + Adjust(items[1..], id, delta)
  }

  /** `map` changes the entries with the given id, and only those, in place. */
  lemma {:induction false} AdjustPointwise(items: seq<CartItem>, id: string, delta: int)
    ensures forall i :: 0 <= i < |items| ==>
      Adjust(items, id, delta)[i] == if items[i].id == id then items[i].(quantity := items[i].quantity + delta) else items[i]
  {
    if items != [] {
      AdjustPointwise(items[1..], id, delta);
    }
  }

  function WithoutId(items: seq<CartItem>, id: string): seq<CartItem>
  {
    Filter(items, (x: CartItem) => x.id != id)
  }

  /** `i => i.quantity > 0`, the test DECREASE_QUANTITY filters by. */
  predicate InStock(x: CartItem)
  {
    x.quantity > 0
  }

  function Positive(items: seq<CartItem>): seq<CartItem>
  {
    Filter(items, InStock)
  }

  function NewEntry(p: Product): CartItem
    requires Complete(p)
  {
    CartItem(p.id.value, p.name.value, p.price.value, p.imageUrl.value, 1)
  }

  /** cartReducer. The source's `default` branch is unreachable: CartAction has exactly these seven cases. */
  function Reduce(state: CartState, action: CartAction): (r: CartState)
    ensures r.message.Some? <==> action.AddItem? || action.ClearCart?
    ensures action.AddItem? ==> state.items <= r.items && |r.items| <= |state.items| + 1
    ensures !action.AddItem? && !action.LoadCart? ==> |r.items| <= |state.items|
  {
    match action
    case LoadCart(items) => CartState(items, None)
    case AddItem(p) =>
      if !Complete(p) then state.(message := Some(IncompleteMessage))
      else if HasId(state.items, p.id.value) then state.(message := Some(AlreadyInCartMessage(p.name.value)))
      else CartState(state.items + [NewEntry(p)], Some(AddedMessage(p.name.value)))
    case RemoveItem(id) => CartState(WithoutId(state.items, id), None)
    case IncreaseQuantity(id) => CartState(Adjust(state.items, id, 1), None)
    case DecreaseQuantity(id) => CartState(Positive(Adjust(state.items, id, -1)), None)
    case ClearMessage => state.(message := None)
    case ClearCart => CartState([], Some(ClearedMessage))
  }

  // ---------------------------------------------------------------------
  // Sequence facts used below

  lemma {:induction false} FilterAppend(a: seq<CartItem>, b: seq<CartItem>, keep: CartItem -> bool)
    ensures Filter(a + b, keep) == Filter(a, keep) + Filter(b, keep)
  {
    if a == [] {
      assert a + b == b;
    } else {
      var head := if keep(a[0]) then [a[0]] else [];
      assert (a + b)[0] == a[0];
      assert (a + b)[1..] == a[1..] + b;
      FilterAppend(a[1..], b, keep);
      calc {
        Filter(a + b, keep);
        head + Filter(a[1..] + b, keep);
        head + (Filter(a[1..], keep) + Filter(b, keep));
        (head + Filter(a[1..], keep)) + Filter(b, keep);
      }
    }
  }

  lemma {:induction false} FilterKeepsAll(items: seq<CartItem>, keep: CartItem -> bool)
    requires forall i :: 0 <= i < |items| ==> keep(items[i])
    ensures Filter(items, keep) == items
  {
    if items != [] {
      FilterKeepsAll(items[1..], keep);
    }
  }

  lemma UniqueTail(items: seq<CartItem>)
    requires items != [] && UniqueIds(items)
    ensures UniqueIds(items[1..])
    ensures forall x :: x in items[1..] ==> x.id != items[0].id
  {
    forall x | x in items[1..] ensures x.id != items[0].id {
      var k :| 0 <= k < |items[1..]| && items[1..][k] == x;
      assert items[k + 1] == x;
    }
  }

  lemma UniqueCons(x: CartItem, rest: seq<CartItem>)
    requires UniqueIds(rest)
    requires forall y :: y in rest ==> y.id != x.id
    ensures UniqueIds([x] + rest)
  {
    var s := [x] + rest;
    forall i, j | 0 <= i < j < |s| ensures s[i].id != s[j].id {
      assert s[j] == rest[j - 1];
      if i > 0 {
        assert s[i] == rest[i - 1];
      }
    }
  }

  lemma {:induction false} FilterUnique(items: seq<CartItem>, keep: CartItem -> bool)
    requires UniqueIds(items)
    ensures UniqueIds(Filter(items, keep))
  {
    if items != [] {
      UniqueTail(items);
      FilterUnique(items[1..], keep);
      if keep(items[0]) {
        FilterMembers(items[1..], keep);
        UniqueCons(items[0], Filter(items[1..], keep));
      }
    }
  }

  /** Without a matching id, `Adjust` leaves the items as they are. */
  lemma AdjustAbsent(items: seq<CartItem>, id: string, delta: int)
    requires !HasId(items, id)
    ensures Adjust(items, id, delta) == items
  {
  }

  /** With unique ids, adjusting the id of entry `k` changes that entry only. */
  lemma AdjustAt(items: seq<CartItem>, k: int, delta: int)
    requires UniqueIds(items) && 0 <= k < |items|
    ensures Adjust(items, items[k].id, delta)
         == items[..k] + [items[k].(quantity := items[k].quantity + delta)] + items[k + 1..]
  {
    AdjustPointwise(items, items[k].id, delta);
  }

  /** With unique ids, dropping the id of entry `k` removes that entry only. */
  lemma WithoutIdAt(items: seq<CartItem>, k: int)
    requires UniqueIds(items) && 0 <= k < |items|
    ensures WithoutId(items, items[k].id) == items[..k] + items[k + 1..]
  {
    var id := items[k].id;
    var keep := (x: CartItem) => x.id != id;
    var front, back := items[..k], items[k + 1..];
    assert items == (front + [items[k]]) + back;
    FilterKeepsAll(front, keep);
    FilterKeepsAll(back, keep);
    FilterDropsOne(front, items[k], back, keep);
  }

  lemma FilterDropsOne(front: seq<CartItem>, x: CartItem, back: seq<CartItem>, keep: CartItem -> bool)
    requires !keep(x) && Filter(front, keep) == front && Filter(back, keep) == back
    ensures Filter(front + [x] + back, keep) == front + back
  {
    assert Filter([x], keep) == [] by {
      assert [x][1..] == [];
      assert Filter([x], keep) == [] + Filter([], keep);
    }
    calc {
      Filter(front + [x] + back, keep);
      { FilterAppend(front + [x], back, keep); }
      Filter(front + [x], keep) + Filter(back, keep);
      { FilterAppend(front, [x], keep); }
      Filter(front, keep) + Filter([x], keep) + Filter(back, keep);
      front + [] + back;
    }
    assert front + [] + back == front + back;
  }

  // ---------------------------------------------------------------------
  // One lemma per action (app/cart/CartContext.tsx:34-80)

  /** ADD_ITEM with incomplete data: items unchanged, the fixed error message. */
  lemma AddIncomplete(state: CartState, p: Product)
    requires !Complete(p)
    ensures Reduce(state, AddItem(p)) == CartState(state.items, Some(IncompleteMessage))
  {
  }

  /** A price of 0 is not "undefined", so a zero-priced product is added. */
  lemma AddZeroPrice(state: CartState, id: string, name: string, imageUrl: string)
    requires id != "" && name != "" && imageUrl != "" && !HasId(state.items, id)
    ensures Reduce(state, AddItem(Product(Some(id), Some(name), Some(0), Some(imageUrl)))).items
         == state.items + [CartItem(id, name, 0, imageUrl, 1)]
  {
  }

  /** ADD_ITEM of an id already present: the items are identical (no quantity bump); only the message changes. */
  lemma AddExisting(state: CartState, p: Product)
    requires Complete(p) && HasId(state.items, p.id.value)
    ensures Reduce(state, AddItem(p)) == CartState(state.items, Some(AlreadyInCartMessage(p.name.value)))
  {
  }

  /** ADD_ITEM of a new id appends exactly one entry at quantity 1 and keeps ids unique. */
  lemma AddNew(state: CartState, p: Product)
    requires Complete(p) && !HasId(state.items, p.id.value)
    ensures var r := Reduce(state, AddItem(p));
      && |r.items| == |state.items| + 1
      && r.items[..|state.items|] == state.items
      && r.items[|state.items|] == CartItem(p.id.value, p.name.value, p.price.value, p.imageUrl.value, 1)
      && r.message == Some(AddedMessage(p.name.value))
      && (UniqueIds(state.items) ==> UniqueIds(r.items))
  {
  }

  /** Adding the same product twice leaves exactly one entry for its id; the second add only sets a message. */
  lemma {:induction false} AddTwice(state: CartState, p: Product)
    requires Complete(p) && UniqueIds(state.items)
    ensures var once := Reduce(state, AddItem(p));
            var twice := Reduce(once, AddItem(p));
      && twice.items == once.items
      && twice.message == Some(AlreadyInCartMessage(p.name.value))
      && UniqueIds(twice.items)
      && exists k :: 0 <= k < |twice.items| && twice.items[k].id == p.id.value
  {
    var once := Reduce(state, AddItem(p));
    if !HasId(state.items, p.id.value) {
      AddNew(state, p);
      assert once.items[|state.items|].id == p.id.value;
    }
  }

  /** REMOVE_ITEM keeps exactly the entries with another id, is a no-op on an absent id, and clears the message. */
  lemma Remove(state: CartState, id: string)
    ensures var r := Reduce(state, RemoveItem(id));
      && r.message == None
      && (forall x :: x in r.items <==> x in state.items && x.id != id)
      && !HasId(r.items, id)
      && (!HasId(state.items, id) ==> r.items == state.items)
  {
    var r := Reduce(state, RemoveItem(id));
    FilterMembers(state.items, (x: CartItem) => x.id != id);
    forall k | 0 <= k < |r.items| ensures r.items[k].id != id {
      assert r.items[k] in r.items;
    }
    if !HasId(state.items, id) {
      FilterKeepsAll(state.items, (x: CartItem) => x.id != id);
    }
  }

  /** INCREASE_QUANTITY adds one to the matching entries only; length and order are kept; the message is cleared. */
  lemma Increase(state: CartState, id: string)
    ensures var r := Reduce(state, IncreaseQuantity(id));
      && r.message == None
      && |r.items| == |state.items|
      && forall i :: 0 <= i < |state.items| ==>
           r.items[i] == if state.items[i].id == id then state.items[i].(quantity := state.items[i].quantity + 1)
                         else state.items[i]
  {
    AdjustPointwise(state.items, id, 1);
  }

  /** After DECREASE_QUANTITY every entry has a positive quantity; the filter drops every non-positive entry, targeted or not. */
  lemma Decrease(state: CartState, id: string)
    ensures var r := Reduce(state, DecreaseQuantity(id));
      && r.message == None
      && (forall i :: 0 <= i < |r.items| ==> r.items[i].quantity > 0)
      && (forall i :: 0 <= i < |state.items| && state.items[i].id != id ==>
            (state.items[i] in r.items <==> state.items[i].quantity > 0))
  {
    var r := Reduce(state, DecreaseQuantity(id));
    var adjusted := Adjust(state.items, id, -1);
    AdjustPointwise(state.items, id, -1);
    FilterMembers(adjusted, InStock);
    forall i | 0 <= i < |r.items| ensures r.items[i].quantity > 0 {
      assert r.items[i] in r.items;
    }
    forall i | 0 <= i < |state.items| && state.items[i].id != id
      ensures state.items[i] in r.items <==> state.items[i].quantity > 0
    {
      assert adjusted[i] == state.items[i];
    }
  }

  /** Decreasing an entry at quantity 1 removes it: no entry with that id is left (ids unique). */
  lemma DecreaseFromOne(state: CartState, k: int)
    requires UniqueIds(state.items) && 0 <= k < |state.items| && state.items[k].quantity == 1
    ensures !HasId(Reduce(state, DecreaseQuantity(state.items[k].id)).items, state.items[k].id)
  {
    var id := state.items[k].id;
    var adjusted := Adjust(state.items, id, -1);
    var r := Reduce(state, DecreaseQuantity(id));
    AdjustPointwise(state.items, id, -1);
    FilterMembers(adjusted, InStock);
    forall j | 0 <= j < |r.items| ensures r.items[j].id != id {
      assert r.items[j] in adjusted && r.items[j].quantity > 0;
      var m :| 0 <= m < |adjusted| && adjusted[m] == r.items[j];
      assert m != k ==> state.items[m].id != id;
    }
  }

  /** CLEAR_MESSAGE, CLEAR_CART and LOAD_CART replace the state directly. */
  lemma Replacements(state: CartState, items: seq<CartItem>)
    ensures Reduce(state, ClearMessage) == CartState(state.items, None)
    ensures Reduce(state, ClearCart) == CartState([], Some(ClearedMessage))
    ensures Reduce(state, LoadCart(items)) == CartState(items, None)
  {
  }

  /** Only ADD_ITEM and CLEAR_CART leave a message behind; CLEAR_MESSAGE keeps items and clears it. */
  lemma MessageAfter(state: CartState, action: CartAction)
    ensures Reduce(state, action).message.Some? ==>
      action.AddItem? || action.ClearCart?
  {
  }

  /** Every action except LOAD_CART keeps ids unique. */
  lemma {:induction false} ReducePreservesUniqueIds(state: CartState, action: CartAction)
    requires UniqueIds(state.items) && !action.LoadCart?
    ensures UniqueIds(Reduce(state, action).items)
  {
    match action
    case AddItem(p) =>
      if Complete(p) && !HasId(state.items, p.id.value) {
        AddNew(state, p);
      }
    case RemoveItem(id) =>
      FilterUnique(state.items, (x: CartItem) => x.id != id);
    case IncreaseQuantity(id) =>
      AdjustPointwise(state.items, id, 1);
    case DecreaseQuantity(id) =>
      var adjusted := Adjust(state.items, id, -1);
      AdjustPointwise(state.items, id, -1);
      assert UniqueIds(adjusted);
      FilterUnique(adjusted, InStock);
    case ClearMessage =>
    case ClearCart =>
  }

  /** Every action except LOAD_CART keeps the cart well formed (unique ids, quantities at least 1). */
  lemma ReducePreservesWellFormed(state: CartState, action: CartAction)
    requires WellFormed(state.items) && !action.LoadCart?
    ensures WellFormed(Reduce(state, action).items)
  {
    ReducePreservesUniqueIds(state, action);
    var r := Reduce(state, action);
    forall i | 0 <= i < |r.items| ensures r.items[i].quantity >= 1 {
      assert r.items[i] in r.items;
      match action
      case AddItem(p) =>
        if i < |state.items| { assert r.items[i] == state.items[i]; }
      case RemoveItem(id) =>
        FilterMembers(state.items, (x: CartItem) => x.id != id);
        var m :| 0 <= m < |state.items| && state.items[m] == r.items[i];
      case IncreaseQuantity(id) =>
        AdjustPointwise(state.items, id, 1);
      case DecreaseQuantity(id) =>
        AdjustPointwise(state.items, id, -1);
        FilterMembers(Adjust(state.items, id, -1), InStock);
      case ClearMessage =>
      case ClearCart =>
    }
  }

  /** LOAD_CART does no per-item validation: it can install duplicate ids and zero quantities. */
  lemma LoadCartUnchecked(state: CartState)
    ensures var x := CartItem("1", "Gizmo", 100, "g.png", 0);
            var r := Reduce(state, LoadCart([x, x]));
      && !UniqueIds(r.items) && !WellFormed(r.items)
  {
    var r := Reduce(state, LoadCart([CartItem("1", "Gizmo", 100, "g.png", 0), CartItem("1", "Gizmo", 100, "g.png", 0)]));
    assert r.items[0].id == r.items[1].id;
  }
}
